/**
 * The earlier spawner, nextflowspawner/__init__.py: a walk that flattens all
 * definition groups into one parameter mapping, form fields wrapped in form
 * groups, and the resolution of a submitted form that takes the last value of
 * each submitted list and lays the submitted parameters over the schema
 * defaults. The markup of select lists and inputs, the `EMAIL` step and the
 * casts by type are the same as in the current version and are shared with it.
 */
module LegacyNextflowSpawner {
  import opened Python
  import opened FormData
  import NextflowSpawner

  // ===========================================================================
  // _get_params_from_schema: one flat mapping from parameter to descriptor (or one of its fields)

  /** The schema the walk builds to recurse into an object-typed properties mapping: `{'defs': {title: properties}}`. */
  function NestedSchema(title: string, properties: Fields): (schema: Fields)
    ensures SizeFields(schema) == 4 + SizeFields(properties)
  {
    var schema := [("defs", Obj([(title, Obj(properties))]))];
    SizeFieldsHead([(title, Obj(properties))]);
    SizeFieldsHead(schema);
    schema
  }

  /** `v if key is None else v.get(key)` */
  function Project(v: Json, key: Option<string>): Result<Json>
  {
    if key.None? then Ok(v)
    else if !v.Obj? then Err(AttributeError("get"))
    else Ok(GetOrNull(v.fields, key.value))
  }

  /** `_get_params_from_schema(schema, key)` */
  function SchemaParams(schema: Fields, key: Option<string>): Result<Fields>
    decreases SizeFields(schema), 0
  {
    if "defs" !in Keys(schema) then Err(KeyError("defs"))
    else
      LookupSmaller(schema, "defs");
      var defs := Lookup(schema, "defs").value;
      if !defs.Obj? then Err(AttributeError("values"))
      else GroupsParams(defs.fields, key, [])
  }

  /** The loop over the groups, from the current one on, with the flat mapping so far in acc. */
  function GroupsParams(gs: Fields, key: Option<string>, acc: Fields): Result<Fields>
    decreases SizeFields(gs) + 1, 2
  {
    if gs == [] then Ok(acc)
    else
      SizeFieldsHead(gs);
      var next :- GroupStep(gs[0].1, key, acc);
      GroupsParams(gs[1..], key, next)
  }

  /** One iteration of the loop: a flat group adds its parameters, an object-typed one its nested walk. */
  function GroupStep(group: Json, key: Option<string>, acc: Fields): Result<Fields>
    decreases Size(group) + 1, 1
  {
    if !group.Obj? then Err(AttributeError("get"))
    else
      var param := GetOrNull(group.fields, "properties");
      if !param.Obj? then Err(AttributeError("get"))
      else if GetOrNull(param.fields, "type") != Str("object") then FlatParams(param.fields, key, acc)
      else
        var title := GetOrNull(param.fields, "title");
        if title.Arr? || title.Obj? then Err(TypeError("unhashable type"))
        else
          LookupSmaller(group.fields, "properties");
          var nested :- SchemaParams(NestedSchema(if title.Str? then title.s else "", param.fields), key);
          if !title.Str? then Err(Unsupported("a parameter group whose title is not a string"))
          else Ok(Put(acc, title.s, Obj(nested)))
  }

  /** `for k, v in param.items(): params[k] = ...`, into the shared flat mapping. */
  function FlatParams(ps: Fields, key: Option<string>, acc: Fields): Result<Fields>
  {
    if ps == [] then Ok(acc)
    else
      var v :- Project(ps[0].1, key);
      FlatParams(ps[1..], key, Put(acc, ps[0].0, v))
  }

  /** `_get_params_from_schema`: the loop fills the one params dict, recursing into object-typed groups. */
  method GetParamsFromSchema(schema: Fields, key: Option<string>) returns (r: Result<Fields>)
    ensures r == SchemaParams(schema, key)
    decreases SizeFields(schema), 0
  {
    if "defs" !in Keys(schema) {
      return Err(KeyError("defs"));
    }
    LookupSmaller(schema, "defs");
    var defs := Lookup(schema, "defs").value;
    if !defs.Obj? {
      return Err(AttributeError("values"));
    }
    var gs := defs.fields;
    var params: Fields := [];
    var i := 0;
    while i < |gs|
      invariant 0 <= i <= |gs|
      invariant GroupsParams(gs[i..], key, params) == SchemaParams(schema, key)
    {
      SizeFieldsHead(gs[i..]);
      MemberSmaller(gs, i);
      assert gs[i..][1..] == gs[i + 1..];
      var next := AddGroup(gs[i].1, key, params);
      if next.Err? {
        return Err(next.error);
      }
      params := next.value;
      i := i + 1;
    }
    return Ok(params);
  }

  /** The body of the loop of `_get_params_from_schema` for one group. */
  method AddGroup(group: Json, key: Option<string>, params: Fields) returns (r: Result<Fields>)
    ensures r == GroupStep(group, key, params)
    decreases Size(group) + 1, 1
  {
    if !group.Obj? {
      return Err(AttributeError("get"));
    }
    var param := GetOrNull(group.fields, "properties");
    if !param.Obj? {
      return Err(AttributeError("get"));
    }
    if GetOrNull(param.fields, "type") != Str("object") {
      var ps := param.fields;
      var flat := params;
      var j := 0;
      while j < |ps|
        invariant 0 <= j <= |ps|
        invariant FlatParams(ps[j..], key, flat) == FlatParams(ps, key, params)
      {
        var v := Project(ps[j].1, key);
        if v.Err? {
          return Err(v.error);
        }
        assert ps[j..][1..] == ps[j + 1..];
        flat := Put(flat, ps[j].0, v.value);
        j := j + 1;
      }
      return Ok(flat);
    }
    var title := GetOrNull(param.fields, "title");
    if title.Arr? || title.Obj? {
      return Err(TypeError("unhashable type"));
    }
    LookupSmaller(group.fields, "properties");
    var nested := GetParamsFromSchema(NestedSchema(if title.Str? then title.s else "", param.fields), key);
    if nested.Err? {
      return Err(nested.error);
    }
    if !title.Str? {
      return Err(Unsupported("a parameter group whose title is not a string"));
    }
    return Ok(Put(params, title.s, Obj(nested.value)));
  }

  /** Each parameter of a flat group takes its projected descriptor; other names keep what acc held. */
  lemma {:induction false} FlatParamsLookup(ps: Fields, key: Option<string>, acc: Fields, k: string)
    requires DistinctKeys(ps)
    requires FlatParams(ps, key, acc).Ok?
    ensures k in Keys(ps) ==>
      Project(Lookup(ps, k).value, key).Ok? &&
      Lookup(FlatParams(ps, key, acc).value, k) == Some(Project(Lookup(ps, k).value, key).value)
    ensures k !in Keys(ps) ==> Lookup(FlatParams(ps, key, acc).value, k) == Lookup(acc, k)
  {
    if ps != [] {
      var v := Project(ps[0].1, key).value;
      DistinctKeysTail(ps);
      FlatParamsLookup(ps[1..], key, Put(acc, ps[0].0, v), k);
      LookupPut(acc, ps[0].0, v, k);
      assert Keys(ps) == [ps[0].0] + Keys(ps[1..]);
    }
  }

  /** Walking one more group continues from the mapping the earlier groups produced. */
  lemma {:induction false} GroupsParamsSnoc(gs: Fields, g: (string, Json), key: Option<string>, acc: Fields)
    ensures GroupsParams(gs + [g], key, acc) ==
      var before := GroupsParams(gs, key, acc);
      if before.Err? then before else GroupStep(g.1, key, before.value)
    decreases |gs|
  {
    if gs == [] {
      assert [] + [g] == [g];
      assert [g][1..] == [];
    } else {
      assert (gs + [g])[1..] == gs[1..] + [g];
      assert (gs + [g])[0] == gs[0];
      var next := GroupStep(gs[0].1, key, acc);
      if next.Ok? {
        GroupsParamsSnoc(gs[1..], g, key, next.value);
      }
    }
  }

  /** A flat group walked after the others overrides them: a parameter it declares takes its entry,
      every other name keeps the entry the earlier groups gave it. */
  lemma LaterGroupOverrides(gs: Fields, g: (string, Json), key: Option<string>, k: string)
    requires g.1.Obj? && GetOrNull(g.1.fields, "properties").Obj?
    requires GetOrNull(GetOrNull(g.1.fields, "properties").fields, "type") != Str("object")
    requires DistinctKeys(GetOrNull(g.1.fields, "properties").fields)
    requires GroupsParams(gs + [g], key, []).Ok?
    ensures
      var ps := GetOrNull(g.1.fields, "properties").fields;
      var before := GroupsParams(gs, key, []);
      && before.Ok?
      && (k in Keys(ps) ==>
            Project(Lookup(ps, k).value, key).Ok? &&
            Lookup(GroupsParams(gs + [g], key, []).value, k) == Some(Project(Lookup(ps, k).value, key).value))
      && (k !in Keys(ps) ==> Lookup(GroupsParams(gs + [g], key, []).value, k) == Lookup(before.value, k))
  {
    GroupsParamsSnoc(gs, g, key, []);
    var before := GroupsParams(gs, key, []);
    var ps := GetOrNull(g.1.fields, "properties").fields;
    FlatParamsLookup(ps, key, before.value, k);
  }

  /** An object-typed properties mapping stands for a group of its own: its entry, under its title, is the
      flat mapping of its own `properties`. */
  lemma NestedGroupIsFlat(title: string, properties: Fields, key: Option<string>)
    requires GetOrNull(properties, "properties").Obj?
    requires GetOrNull(GetOrNull(properties, "properties").fields, "type") != Str("object")
    ensures SchemaParams(NestedSchema(title, properties), key) ==
      FlatParams(GetOrNull(properties, "properties").fields, key, [])
  {
    var gs := [(title, Obj(properties))];
    assert Lookup(NestedSchema(title, properties), "defs") == Some(Obj(gs));
    assert gs[1..] == [];
    var flat := FlatParams(GetOrNull(properties, "properties").fields, key, []);
    assert GroupStep(gs[0].1, key, []) == flat;
    if flat.Ok? {
      assert GroupsParams(gs[1..], key, flat.value) == Ok(flat.value);
    }
  }

  /** A schema without `defs` is a KeyError. */
  lemma MissingDefs(schema: Fields, key: Option<string>)
    requires "defs" !in Keys(schema)
    ensures SchemaParams(schema, key) == Err(KeyError("defs"))
  {
  }

  // ===========================================================================
  // _convert_schema_type

  /** With no value, the input kind of the type; with a value, the cast by type. */
  function ConvertSchemaType(ptype: Json, param: Json): Result<Json>
  {
    if ptype == Str("boolean") then (if param.Null? then Ok(Str("checkbox")) else Ok(Bool(Truthy(param))))
    else if ptype == Str("integer") then (if param.Null? then Ok(Str("number")) else IntCast(param))
    else if ptype == Str("number") then (if param.Null? then Ok(Str("number")) else FloatCast(param))
    else if param.Null? then Ok(Str("text"))
    else Ok(Str(PyStr(param)))
  }

  /** Without a value the conversion names the input kind: checkbox, number, or text for anything else. */
  lemma ConvertKinds(ptype: Json)
    ensures ConvertSchemaType(ptype, Null) == Ok(Str(
      if ptype == Str("boolean") then "checkbox"
      else if ptype == Str("integer") || ptype == Str("number") then "number"
      else "text"))
  {
  }

  /** With a value, the earlier conversion casts exactly as the current `_cast_schema_type` does. */
  lemma ConvertAgreesWithCurrent(ptype: Json, param: Json)
    requires !param.Null?
    ensures ConvertSchemaType(ptype, param) == NextflowSpawner.CastSchemaType(ptype, param)
  {
  }

  /** A submitted name the schema does not type (`types.get(k)` is None) is kept as its string. */
  lemma ConvertUntypedKeepsText(s: string)
    ensures ConvertSchemaType(Null, Str(s)) == Ok(Str(s))
  {
  }

  // ===========================================================================
  // _construct_form_field and _options_form_default

  function LabelTag(id: string, description: Json): string
  {
    "<label for='" + id + "'>" + PyStr(description) + "</label>"
  }

  /** The label, present exactly when `description` is truthy. */
  function LabelIf(id: string, fs: Fields): (html: string)
    ensures html != "" <==> Truthy(GetOrNull(fs, "description"))
  {
    var description := GetOrNull(fs, "description");
    if Truthy(description) then LabelTag(id, description) else ""
  }

  function GroupOpen(): string
  {
    "<div class='form-group'>"
  }

  /** `_construct_form_field(id, param)`, joined into one string. */
  function FormField(id: string, param: Json): Result<string>
    decreases Size(param), 1
  {
    if !param.Obj? then Err(AttributeError("get"))
    else
      var caption := LabelIf(id, param.fields);
      if "hidden" in Keys(param.fields) then Ok("")
      else
        var body :- FieldBody(id, param.fields);
        Ok(GroupOpen() + caption + body + "</div>")
  }

  /** The match after the label: enum first, then type with default, then the members in turn. */
  function FieldBody(id: string, fs: Fields): Result<string>
    decreases SizeFields(fs), 2
  {
    if "enum" in Keys(fs) then
      var opts :- Iterate(Lookup(fs, "enum").value);
      Ok(NextflowSpawner.SelectList(id, opts))
    else if "type" in Keys(fs) && "default" in Keys(fs) then
      var kind := ConvertSchemaType(Lookup(fs, "type").value, Null);
      Ok(NextflowSpawner.InputTag(id, Lookup(fs, "default").value, PyStr(kind.value)))
    else NestedFields(fs, "")
  }

  /** `[self._construct_form_field(p, v) for p, v in param.items()]`, appended to acc. */
  function NestedFields(fs: Fields, acc: string): Result<string>
    decreases SizeFields(fs), 0
  {
    if fs == [] then Ok(acc)
    else
      SizeFieldsHead(fs);
      var html :- FormField(fs[0].0, fs[0].1);
      NestedFields(fs[1..], acc + html)
  }

  /** The loop of `_options_form_default` over the flat parameters, with the form so far in acc. */
  function FormFields(params: Fields, acc: string): Result<string>
  {
    if params == [] then Ok(acc)
    else
      var html :- FormField(params[0].0, params[0].1);
      FormFields(params[1..], acc + html)
  }

  /** `_options_form_default` */
  function OptionsForm(schema: Fields): Result<string>
  {
    var params :- SchemaParams(schema, None);
    FormFields(params, "")
  }

  /** `_construct_form_field`: the html list grows piece by piece; nested members are rendered recursively. */
  method ConstructFormField(id: string, param: Json) returns (r: Result<string>)
    ensures r == FormField(id, param)
    decreases Size(param), 1
  {
    if !param.Obj? {
      return Err(AttributeError("get"));
    }
    var fs := param.fields;
    var html := GroupOpen();
    var description := GetOrNull(fs, "description");
    if Truthy(description) {
      html := html + LabelTag(id, description);
    } else {
      assert GroupOpen() + LabelIf(id, fs) == html;
    }
    assert html == GroupOpen() + LabelIf(id, fs);
    if "hidden" in Keys(fs) {
      return Ok("");
    }
    var body := ConstructFieldBody(id, fs);
    if body.Err? {
      return Err(body.error);
    }
    html := html + body.value;
    html := html + "</div>";
    return Ok(html);
  }

  /** The arms of the match in `_construct_form_field`. */
  method ConstructFieldBody(id: string, fs: Fields) returns (r: Result<string>)
    ensures r == FieldBody(id, fs)
    decreases SizeFields(fs), 2
  {
    if "enum" in Keys(fs) {
      var found := Iterate(Lookup(fs, "enum").value);
      if found.Err? {
        return Err(found.error);
      }
      var opts := found.value;
      var html := "";
      var k := 0;
      while k < |opts|
        invariant 0 <= k <= |opts|
        invariant html == NextflowSpawner.OptionTags(opts[..k])
      {
        assert opts[..k + 1][..k] == opts[..k];
        html := html + NextflowSpawner.OptionTag(opts[k]);
        k := k + 1;
      }
      assert opts[..|opts|] == opts;
      return Ok("<select name='" + id + "' class='form-control'>" + html + "</select>");
    } else if "type" in Keys(fs) && "default" in Keys(fs) {
      var kind := ConvertSchemaType(Lookup(fs, "type").value, Null);
      return Ok(NextflowSpawner.InputTag(id, Lookup(fs, "default").value, PyStr(kind.value)));
    } else {
      var nested := "";
      var i := 0;
      while i < |fs|
        invariant 0 <= i <= |fs|
        invariant NestedFields(fs[i..], nested) == NestedFields(fs, "")
      {
        SizeFieldsHead(fs[i..]);
        MemberSmaller(fs, i);
        var sub := ConstructFormField(fs[i].0, fs[i].1);
        if sub.Err? {
          return Err(sub.error);
        }
        assert fs[i..][1..] == fs[i + 1..];
        nested := nested + sub.value;
        i := i + 1;
      }
      return Ok(nested);
    }
  }

  /** `_options_form_default`: the fields of all parameters, in walk order. */
  method OptionsFormDefault(schema: Fields) returns (r: Result<string>)
    ensures r == OptionsForm(schema)
  {
    var walked := GetParamsFromSchema(schema, None);
    if walked.Err? {
      return Err(walked.error);
    }
    var params := walked.value;
    var html := "";
    var i := 0;
    while i < |params|
      invariant 0 <= i <= |params|
      invariant FormFields(params[i..], html) == OptionsForm(schema)
    {
      var field := ConstructFormField(params[i].0, params[i].1);
      if field.Err? {
        return Err(field.error);
      }
      assert params[i..][1..] == params[i + 1..];
      html := html + field.value;
      i := i + 1;
    }
    return Ok(html);
  }

  /** The form of a sequence of parameters is the form of its first part followed by that of the rest:
      fields appear in walk order. */
  lemma {:induction false} FormFieldsConcat(a: Fields, b: Fields, acc: string)
    ensures FormFields(a + b, acc) ==
      var first := FormFields(a, acc);
      if first.Err? then first else FormFields(b, first.value)
  {
    if a == [] {
      assert a + b == b;
    } else {
      assert (a + b)[0] == a[0];
      assert (a + b)[1..] == a[1..] + b;
      var html := FormField(a[0].0, a[0].1);
      if html.Ok? {
        FormFieldsConcat(a[1..], b, acc + html.value);
      }
    }
  }

  /** A hidden parameter adds nothing to the form. */
  lemma FormFieldsSkipHidden(params: Fields, i: nat, acc: string)
    requires i < |params| && params[i].1.Obj? && "hidden" in Keys(params[i].1.fields)
    ensures FormFields(params, acc) == FormFields(params[..i] + params[i + 1..], acc)
  {
    assert params == params[..i] + ([params[i]] + params[i + 1..]);
    FormFieldsConcat(params[..i], [params[i]] + params[i + 1..], acc);
    FormFieldsConcat(params[..i], params[i + 1..], acc);
    var first := FormFields(params[..i], acc);
    if first.Ok? {
      assert ([params[i]] + params[i + 1..])[1..] == params[i + 1..];
      assert first.value + "" == first.value;
    }
  }

  /** Parameters that are all hidden render the empty form. */
  lemma {:induction false} FormFieldsAllHidden(params: Fields, acc: string)
    requires forall i :: 0 <= i < |params| ==> params[i].1.Obj? && "hidden" in Keys(params[i].1.fields)
    ensures FormFields(params, acc) == Ok(acc)
  {
    if params != [] {
      assert acc + "" == acc;
      FormFieldsAllHidden(params[1..], acc);
    }
  }

  /** A hidden descriptor renders nothing, even though its label was already prepared. */
  lemma HiddenRendersNothing(id: string, fs: Fields)
    requires "hidden" in Keys(fs)
    ensures FormField(id, Obj(fs)) == Ok("")
  {
  }

  /** Any other descriptor is wrapped in a form group, with the label first exactly when `description`
      is truthy. */
  lemma FormGroupWrapping(id: string, fs: Fields)
    requires "hidden" !in Keys(fs)
    requires FieldBody(id, fs).Ok?
    ensures
      var r := FormField(id, Obj(fs)).value;
      var body := FieldBody(id, fs).value;
      && FormField(id, Obj(fs)).Ok?
      && r == GroupOpen() + LabelIf(id, fs) + body + "</div>"
      && (Truthy(GetOrNull(fs, "description")) ==>
            r == GroupOpen() + LabelTag(id, GetOrNull(fs, "description")) + body + "</div>")
      && (!Truthy(GetOrNull(fs, "description")) ==> r == GroupOpen() + body + "</div>")
  {
    assert GroupOpen() + "" == GroupOpen();
  }

  /** `enum` is matched before `type` and `default`: a field with choices is a select list even when it
      also has a type and a default. */
  lemma EnumBeforeType(id: string, fs: Fields)
    requires "hidden" !in Keys(fs) && "enum" in Keys(fs) && Lookup(fs, "enum").value.Arr?
    ensures FormField(id, Obj(fs)) ==
      Ok(GroupOpen() + LabelIf(id, fs) + NextflowSpawner.SelectList(id, Lookup(fs, "enum").value.items) + "</div>")
  {
  }

  /** A field with a type and a default but no choices is an input of the type's kind, carrying the default. */
  lemma TypedInput(id: string, fs: Fields)
    requires "hidden" !in Keys(fs) && "enum" !in Keys(fs) && "type" in Keys(fs) && "default" in Keys(fs)
    ensures
      var ptype := Lookup(fs, "type").value;
      var kind := if ptype == Str("boolean") then "checkbox"
                  else if ptype == Str("integer") || ptype == Str("number") then "number"
                  else "text";
      FormField(id, Obj(fs)) ==
        Ok(GroupOpen() + LabelIf(id, fs) + NextflowSpawner.InputTag(id, Lookup(fs, "default").value, kind) + "</div>")
  {
    ConvertKinds(Lookup(fs, "type").value);
  }

  // ===========================================================================
  // options_from_form

  /** The form lists after `v.pop()` took the last value submitted for the i-th field. */
  function Dropped(form: Lists, i: nat): (r: Lists)
    requires i < |form| && form[i].1 != []
    ensures |r| == |form| && r[i] == (form[i].0, form[i].1[..|form[i].1| - 1])
    ensures forall m :: 0 <= m < |form| && m != i ==> r[m] == form[m]
  {
    form[i := (form[i].0, form[i].1[..|form[i].1| - 1])]
  }

  function Last(l: seq<string>): string
    requires l != []
  {
    l[|l| - 1]
  }

  /** The value a submitted field contributes: its last string, cast by the type the schema gives its name. */
  function SubmittedValue(types: Fields, field: (string, seq<string>)): Result<Json>
    requires field.1 != []
  {
    ConvertSchemaType(GetOrNull(types, field.0), Str(Last(field.1)))
  }

  /** The submitted parameters `{k: _convert_schema_type(types.get(k), v.pop()) for k, v in formdata.items()}`,
      from the i-th submitted field on, with the mapping so far in acc. */
  function SubmittedParams(form: Lists, i: nat, types: Fields, acc: Fields): (r: Applied)
    requires i <= |form|
    ensures |r.form| == |form|
    ensures forall m :: 0 <= m < |form| ==> r.form[m].0 == form[m].0
    decreases |form| - i
  {
    if i == |form| then Applied(Ok(acc), form)
    else if form[i].1 == [] then Applied(Err(IndexError), form)
    else
      var v := SubmittedValue(types, form[i]);
      if v.Err? then Applied(Err(v.error), Dropped(form, i))
      else SubmittedParams(Dropped(form, i), i + 1, types, Put(acc, form[i].0, v.value))
  }

  /** Fields before i are no longer touched, and names no later field carries keep what acc held. */
  lemma {:induction false} SubmittedFrame(form: Lists, i: nat, types: Fields, acc: Fields, n: string)
    requires i <= |form|
    requires SubmittedParams(form, i, types, acc).result.Ok?
    ensures forall m :: 0 <= m < i ==> SubmittedParams(form, i, types, acc).form[m] == form[m]
    ensures (forall m :: i <= m < |form| ==> form[m].0 != n) ==>
      Lookup(SubmittedParams(form, i, types, acc).result.value, n) == Lookup(acc, n)
    decreases |form| - i
  {
    if i < |form| {
      var v := SubmittedValue(types, form[i]).value;
      SubmittedFrame(Dropped(form, i), i + 1, types, Put(acc, form[i].0, v), n);
      LookupPut(acc, form[i].0, v, n);
    }
  }

  /** Each submitted field, from the i-th on, had a value; its last value, cast, is its parameter, and the
      list it came from has lost exactly that value. */
  lemma {:induction false} SubmittedLast(form: Lists, i: nat, types: Fields, acc: Fields, j: nat)
    requires i <= j < |form|
    requires Distinct(Names(form))
    requires SubmittedParams(form, i, types, acc).result.Ok?
    ensures form[j].1 != [] && SubmittedValue(types, form[j]).Ok?
    ensures Lookup(SubmittedParams(form, i, types, acc).result.value, form[j].0) == Some(SubmittedValue(types, form[j]).value)
    ensures SubmittedParams(form, i, types, acc).form[j] == (form[j].0, form[j].1[..|form[j].1| - 1])
    decreases |form| - i
  {
    if j == i {
      SubmittedLastHere(form, i, types, acc);
    } else {
      var rest := Dropped(form, i);
      var acc' := Put(acc, form[i].0, SubmittedValue(types, form[i]).value);
      assert SubmittedParams(form, i, types, acc) == SubmittedParams(rest, i + 1, types, acc');
      assert Names(rest) == Names(form);
      SubmittedLast(rest, i + 1, types, acc', j);
    }
  }

  /** The case j == i of SubmittedLast: the field taken first keeps its value, since no later field shares its name. */
  lemma SubmittedLastHere(form: Lists, i: nat, types: Fields, acc: Fields)
    requires i < |form|
    requires Distinct(Names(form))
    requires SubmittedParams(form, i, types, acc).result.Ok?
    ensures form[i].1 != [] && SubmittedValue(types, form[i]).Ok?
    ensures Lookup(SubmittedParams(form, i, types, acc).result.value, form[i].0) == Some(SubmittedValue(types, form[i]).value)
    ensures SubmittedParams(form, i, types, acc).form[i] == (form[i].0, form[i].1[..|form[i].1| - 1])
  {
    var rest := Dropped(form, i);
    var v := SubmittedValue(types, form[i]).value;
    var acc' := Put(acc, form[i].0, v);
    assert SubmittedParams(form, i, types, acc) == SubmittedParams(rest, i + 1, types, acc');
    SubmittedFrame(rest, i + 1, types, acc', form[i].0);
    LookupPut(acc, form[i].0, v, form[i].0);
    assert forall m :: i + 1 <= m < |form| ==> rest[m].0 != form[i].0 by {
      forall m | i + 1 <= m < |form| ensures rest[m].0 != form[i].0 {
        assert Names(form)[m] == form[m].0 && Names(form)[i] == form[i].0;
      }
    }
  }

  /** Submitted names are the only new keys: a name no field carries keeps what acc held. */
  lemma {:induction false} SubmittedDistinct(form: Lists, i: nat, types: Fields, acc: Fields)
    requires i <= |form|
    requires DistinctKeys(acc)
    requires SubmittedParams(form, i, types, acc).result.Ok?
    ensures DistinctKeys(SubmittedParams(form, i, types, acc).result.value)
    decreases |form| - i
  {
    if i < |form| {
      var v := SubmittedValue(types, form[i]).value;
      PutDistinct(acc, form[i].0, v);
      SubmittedDistinct(Dropped(form, i), i + 1, types, Put(acc, form[i].0, v));
    }
  }

  /** The check of one submitted path: the glob must match something, and every match must be readable. */
  function CheckPath(value: Json, fsys: FileSystem): (r: Option<PyError>)
    ensures r.None? <==> value.Str? && fsys.glob(value.s) != [] && forall p :: p in fsys.glob(value.s) ==> Access(fsys, p)
    ensures value.Str? && fsys.glob(value.s) == [] ==> r == Some(FileNotFoundError(value.s + " does not exist."))
  {
    if !value.Str? then Some(TypeError("expected str, bytes or os.PathLike object"))
    else
      var g := fsys.glob(value.s);
      if g == [] then Some(FileNotFoundError(value.s + " does not exist."))
      else FirstUnreadable(g, fsys)
  }

  /** `for p in g: if not os.access(p, os.R_OK): raise PermissionError(...)` */
  function FirstUnreadable(g: seq<string>, fsys: FileSystem): (r: Option<PyError>)
    ensures r.None? <==> forall p :: p in g ==> Access(fsys, p)
    ensures r.Some? ==> exists i :: 0 <= i < |g| && !Access(fsys, g[i]) && (forall j :: 0 <= j < i ==> Access(fsys, g[j]))
                                  && r.value == PermissionError(g[i] + " is not readable.")
  {
    if g == [] then None
    else if !Access(fsys, g[0]) then Some(PermissionError(g[0] + " is not readable."))
    else
      var r := FirstUnreadable(g[1..], fsys);
      assert forall p :: p in g <==> p == g[0] || p in g[1..];
      assert forall i :: 0 <= i < |g[1..]| ==> g[1..][i] == g[i + 1];
      r
  }

  /** A submitted parameter whose schema format is `path` must pass CheckPath. */
  predicate MustExist(formats: Fields, params: Fields, m: int)
    requires 0 <= m < |formats|
  {
    formats[m].0 in Keys(params) && formats[m].1 == Str("path")
  }

  /** The loop over the formats, from the current one on; the first failed check is the error. */
  function CheckFormats(formats: Fields, params: Fields, fsys: FileSystem): (r: Option<PyError>)
    ensures r.None? <==> forall m :: 0 <= m < |formats| && MustExist(formats, params, m) ==>
      CheckPath(Lookup(params, formats[m].0).value, fsys).None?
  {
    if formats == [] then None
    else
      var rest := CheckFormats(formats[1..], params, fsys);
      assert forall m :: 1 <= m < |formats| ==> MustExist(formats, params, m) == MustExist(formats[1..], params, m - 1);
      if MustExist(formats, params, 0) then
        var failed := CheckPath(Lookup(params, formats[0].0).value, fsys);
        if failed.Some? then failed else rest
      else rest
  }

  /** `options_from_form(formdata)` on the form lists, with the schema walked for types, defaults and formats. */
  function FormOptions(
    schema: Fields, form: Lists, environment: map<string, string>, fsys: FileSystem, validate: (Json, Json) -> bool
  ): Applied
  {
    var types := SchemaParams(schema, Some("type"));
    if types.Err? then Applied(Err(types.error), form)
    else
      var defaults := SchemaParams(schema, Some("default"));
      if defaults.Err? then Applied(Err(defaults.error), form)
      else
        var submitted := SubmittedParams(form, 0, types.value, []);
        if submitted.result.Err? then submitted
        else
          var formats := SchemaParams(schema, Some("format"));
          if formats.Err? then Applied(Err(formats.error), submitted.form)
          else
            var failed := CheckFormats(formats.value, submitted.result.value, fsys);
            if failed.Some? then Applied(Err(failed.value), submitted.form)
            else
              var options := NextflowSpawner.WithEmail(Merge(defaults.value, submitted.result.value), environment);
              if !validate(Obj(options), Obj(schema)) then Applied(Err(ValidationError), submitted.form)
              else Applied(Ok(options), submitted.form)
  }

  /** `options_from_form`: pops the last value of every submitted list, checks the paths, and lays the
      submitted parameters over the defaults. */
  method OptionsFromForm(
    schema: Fields, form: Form, environment: map<string, string>, fsys: FileSystem, validate: (Json, Json) -> bool
  ) returns (r: Result<Fields>)
    modifies form
    ensures r == FormOptions(schema, old(form.lists), environment, fsys, validate).result
    ensures form.lists == FormOptions(schema, old(form.lists), environment, fsys, validate).form
  {
    var types := GetParamsFromSchema(schema, Some("type"));
    if types.Err? {
      return Err(types.error);
    }
    var defaults := GetParamsFromSchema(schema, Some("default"));
    if defaults.Err? {
      return Err(defaults.error);
    }
    var params := PopSubmitted(form, types.value);
    if params.Err? {
      return params;
    }
    var formats := GetParamsFromSchema(schema, Some("format"));
    if formats.Err? {
      return Err(formats.error);
    }
    var failed := CheckSubmittedPaths(formats.value, params.value, fsys);
    if failed.Some? {
      return Err(failed.value);
    }
    var options := Merge(defaults.value, params.value);
    if "NXF_USER_EMAIL" in environment {
      options := Put(options, "EMAIL", Str(environment["NXF_USER_EMAIL"]));
    }
    if !validate(Obj(options), Obj(schema)) {
      return Err(ValidationError);
    }
    return Ok(options);
  }

  /** The dict comprehension over the submitted fields: each list gives up its last value. */
  method PopSubmitted(form: Form, types: Fields) returns (r: Result<Fields>)
    modifies form
    ensures r == SubmittedParams(old(form.lists), 0, types, []).result
    ensures form.lists == SubmittedParams(old(form.lists), 0, types, []).form
  {
    var params: Fields := [];
    var i := 0;
    while i < |form.lists|
      invariant 0 <= i <= |form.lists| == |old(form.lists)|
      invariant SubmittedParams(form.lists, i, types, params) == SubmittedParams(old(form.lists), 0, types, [])
    {
      var name := form.lists[i].0;
      ghost var before := form.lists;
      var popped := form.PopLast(i);
      if popped.Err? {
        return Err(popped.error);
      }
      assert form.lists == Dropped(before, i);
      var v := ConvertSchemaType(GetOrNull(types, name), popped.value);
      assert v == SubmittedValue(types, before[i]);
      if v.Err? {
        return Err(v.error);
      }
      params := Put(params, name, v.value);
      i := i + 1;
    }
    return Ok(params);
  }

  /** The loop over the formats walk: every submitted path-format parameter is checked in turn. */
  method CheckSubmittedPaths(formats: Fields, params: Fields, fsys: FileSystem) returns (r: Option<PyError>)
    ensures r == CheckFormats(formats, params, fsys)
  {
    var k := 0;
    while k < |formats|
      invariant 0 <= k <= |formats|
      invariant CheckFormats(formats[k..], params, fsys) == CheckFormats(formats, params, fsys)
    {
      assert formats[k..][1..] == formats[k + 1..];
      if formats[k].0 in Keys(params) && formats[k].1 == Str("path") {
        var failed := CheckSubmittedPath(Lookup(params, formats[k].0).value, fsys);
        if failed.Some? {
          return failed;
        }
      }
      k := k + 1;
    }
    return None;
  }

  /** The glob of one submitted path, and the readability loop over its matches. */
  method CheckSubmittedPath(value: Json, fsys: FileSystem) returns (r: Option<PyError>)
    ensures r == CheckPath(value, fsys)
  {
    if !value.Str? {
      return Some(TypeError("expected str, bytes or os.PathLike object"));
    }
    var g := fsys.glob(value.s);
    if g == [] {
      return Some(FileNotFoundError(value.s + " does not exist."));
    }
    var j := 0;
    while j < |g|
      invariant 0 <= j <= |g|
      invariant FirstUnreadable(g[j..], fsys) == FirstUnreadable(g, fsys)
    {
      assert g[j..][1..] == g[j + 1..];
      if !Access(fsys, g[j]) {
        return Some(PermissionError(g[j] + " is not readable."));
      }
      j := j + 1;
    }
    return None;
  }

  /** What a successful resolution went through: every walk succeeded, every path check passed, and the
      result is the submitted parameters laid over the defaults, with `EMAIL` added and validated. */
  lemma FormOptionsOk(
    schema: Fields, form: Lists, environment: map<string, string>, fsys: FileSystem, validate: (Json, Json) -> bool)
    requires FormOptions(schema, form, environment, fsys, validate).result.Ok?
    ensures SchemaParams(schema, Some("type")).Ok? && SchemaParams(schema, Some("default")).Ok?
    ensures SchemaParams(schema, Some("format")).Ok?
    ensures
      var submitted := SubmittedParams(form, 0, SchemaParams(schema, Some("type")).value, []);
      var r := FormOptions(schema, form, environment, fsys, validate);
      && submitted.result.Ok?
      && r.form == submitted.form
      && CheckFormats(SchemaParams(schema, Some("format")).value, submitted.result.value, fsys).None?
      && r.result.value == NextflowSpawner.WithEmail(Merge(SchemaParams(schema, Some("default")).value, submitted.result.value), environment)
      && validate(Obj(r.result.value), Obj(schema))
  {
  }

  /** `defaults | params`: a submitted field's parameter is its last value, cast by its schema type;
      names nobody submitted keep their defaults. */
  lemma SubmittedOverDefaults(form: Lists, types: Fields, defaults: Fields, k: string)
    requires Distinct(Names(form))
    requires SubmittedParams(form, 0, types, []).result.Ok?
    ensures
      var options := Merge(defaults, SubmittedParams(form, 0, types, []).result.value);
      && (k !in Names(form) ==> Lookup(options, k) == Lookup(defaults, k))
      && (forall j :: 0 <= j < |form| && form[j].0 == k ==>
            form[j].1 != [] && SubmittedValue(types, form[j]).Ok? &&
            Lookup(options, k) == Some(SubmittedValue(types, form[j]).value))
  {
    var submitted := SubmittedParams(form, 0, types, []).result.value;
    SubmittedDistinct(form, 0, types, []);
    LookupMerge(defaults, submitted, k);
    if k !in Names(form) {
      SubmittedFrame(form, 0, types, [], k);
      assert Lookup(submitted, k) == None;
    }
    forall j | 0 <= j < |form| && form[j].0 == k
      ensures form[j].1 != [] && SubmittedValue(types, form[j]).Ok? &&
              Lookup(Merge(defaults, submitted), k) == Some(SubmittedValue(types, form[j]).value)
    {
      SubmittedLast(form, 0, types, [], j);
    }
  }

  /** A successful resolution passed validation; `EMAIL` is the configured address, and every other name
      nobody submitted keeps its default. */
  lemma FormOptionsResult(
    schema: Fields, form: Lists, environment: map<string, string>, fsys: FileSystem, validate: (Json, Json) -> bool,
    k: string)
    requires Distinct(Names(form))
    requires FormOptions(schema, form, environment, fsys, validate).result.Ok?
    ensures SchemaParams(schema, Some("default")).Ok?
    ensures
      var r := FormOptions(schema, form, environment, fsys, validate).result.value;
      && validate(Obj(r), Obj(schema))
      && ("NXF_USER_EMAIL" in environment ==> Lookup(r, "EMAIL") == Some(Str(environment["NXF_USER_EMAIL"])))
      && (k != "EMAIL" && k !in Names(form) ==> Lookup(r, k) == Lookup(SchemaParams(schema, Some("default")).value, k))
  {
    FormOptionsOk(schema, form, environment, fsys, validate);
    var types := SchemaParams(schema, Some("type")).value;
    var defaults := SchemaParams(schema, Some("default")).value;
    var options := Merge(defaults, SubmittedParams(form, 0, types, []).result.value);
    var r := FormOptions(schema, form, environment, fsys, validate).result.value;
    assert r == NextflowSpawner.WithEmail(options, environment);
    SubmittedOverDefaults(form, types, defaults, k);
    if k != "EMAIL" {
      assert Lookup(r, k) == Lookup(options, k);
    }
  }

  /** In a successful resolution, the j-th submitted field (unless it is named `EMAIL`) resolves to its last
      submitted value, cast by its schema type, whatever default the schema gives it. */
  lemma FormOptionsSubmitted(
    schema: Fields, form: Lists, environment: map<string, string>, fsys: FileSystem, validate: (Json, Json) -> bool,
    j: nat)
    requires Distinct(Names(form))
    requires FormOptions(schema, form, environment, fsys, validate).result.Ok?
    requires j < |form| && form[j].0 != "EMAIL"
    ensures SchemaParams(schema, Some("type")).Ok?
    ensures form[j].1 != [] && SubmittedValue(SchemaParams(schema, Some("type")).value, form[j]).Ok?
    ensures Lookup(FormOptions(schema, form, environment, fsys, validate).result.value, form[j].0) ==
      Some(SubmittedValue(SchemaParams(schema, Some("type")).value, form[j]).value)
  {
    FormOptionsOk(schema, form, environment, fsys, validate);
    var types := SchemaParams(schema, Some("type")).value;
    var defaults := SchemaParams(schema, Some("default")).value;
    var options := Merge(defaults, SubmittedParams(form, 0, types, []).result.value);
    var r := FormOptions(schema, form, environment, fsys, validate).result.value;
    assert r == NextflowSpawner.WithEmail(options, environment);
    SubmittedOverDefaults(form, types, defaults, form[j].0);
    assert Lookup(r, form[j].0) == Lookup(options, form[j].0);
  }

  /** A successful resolution checked every submitted path-format parameter: it is a path whose glob
      matches something, and every match is readable. */
  lemma FormOptionsPathsChecked(
    schema: Fields, form: Lists, environment: map<string, string>, fsys: FileSystem, validate: (Json, Json) -> bool,
    k: string)
    requires FormOptions(schema, form, environment, fsys, validate).result.Ok?
    ensures
      var types := SchemaParams(schema, Some("type")).value;
      var submitted := SubmittedParams(form, 0, types, []).result.value;
      var formats := SchemaParams(schema, Some("format")).value;
      k in Keys(submitted) && Lookup(formats, k) == Some(Str("path")) ==>
        var value := Lookup(submitted, k).value;
        value.Str? && fsys.glob(value.s) != [] && forall p :: p in fsys.glob(value.s) ==> Access(fsys, p)
  {
    FormOptionsOk(schema, form, environment, fsys, validate);
    var types := SchemaParams(schema, Some("type")).value;
    var submitted := SubmittedParams(form, 0, types, []).result.value;
    var formats := SchemaParams(schema, Some("format")).value;
    if k in Keys(submitted) && Lookup(formats, k) == Some(Str("path")) {
      var m := LookupIndex(formats, k);
      assert MustExist(formats, submitted, m);
    }
  }

  /** Where a present key sits. */
  lemma {:induction false} LookupIndex(fs: Fields, k: string) returns (m: nat)
    requires Lookup(fs, k).Some?
    ensures m < |fs| && fs[m] == (k, Lookup(fs, k).value)
  {
    if fs[0].0 == k {
      m := 0;
    } else {
      var m' := LookupIndex(fs[1..], k);
      m := m' + 1;
    }
  }

  /** A submitted path that fails its check rejects the whole form. */
  lemma MissingPathRejected(
    schema: Fields, form: Lists, environment: map<string, string>, fsys: FileSystem, validate: (Json, Json) -> bool)
    requires SchemaParams(schema, Some("type")).Ok? && SchemaParams(schema, Some("default")).Ok?
    requires SchemaParams(schema, Some("format")).Ok?
    requires SubmittedParams(form, 0, SchemaParams(schema, Some("type")).value, []).result.Ok?
    requires
      var submitted := SubmittedParams(form, 0, SchemaParams(schema, Some("type")).value, []).result.value;
      exists m :: 0 <= m < |SchemaParams(schema, Some("format")).value| &&
        MustExist(SchemaParams(schema, Some("format")).value, submitted, m) &&
        CheckPath(Lookup(submitted, SchemaParams(schema, Some("format")).value[m].0).value, fsys).Some?
    ensures FormOptions(schema, form, environment, fsys, validate).result.Err?
  {
  }
}
