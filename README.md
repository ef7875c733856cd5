# NextflowSpawner, modelled in Dafny

NextflowSpawner is a JupyterHub spawner that runs a Nextflow pipeline behind
jupyter-server-proxy. Its logic is driven by the pipeline's parameter schema
(`nextflow_schema.json`):

- the schema is walked into a mapping of parameter descriptors, or into one
  projected field of each descriptor;
- the mapping is rendered as the HTML options form;
- the form the user submits is turned back into a schema-typed parameter
  dict, which is validated;
- for the current version, the `nextflow run` command line and the
  environment it reads are assembled.

The repository has two versions of this module and the project models both:

- `src/nextflowspawner/__init__.py` (module `NextflowSpawner`): parameters
  grouped by definition group, object-typed properties nested, the first
  submitted value consumed, cards and help text in the form, and `ignite`
  and `get_env`.
- `nextflowspawner/__init__.py` (module `LegacyNextflowSpawner`): one flat
  parameter mapping, form groups, the last submitted value consumed, schema
  defaults overridden by submissions, and glob/permission checks on
  `path`-format parameters.

Shared ground:

- `python.dfy` (module `Python`) holds JSON values, Python exceptions as
  `Result` errors, ordered dicts, and the Python built-ins the code relies
  on. Dicts keep insertion order, and assigning an existing key keeps its
  place. The built-ins are `bool()`, `str()`, `int()`, `float()`, iteration,
  `in` and `os.path.dirname`.
- `formdata.dfy` (module `FormData`) holds the submitted form as lists of
  strings. The class `Form` owns the lists, and its methods pop from them,
  so consuming a value changes the form as it does in the source.

Every loop of the source is a method with a `while` loop. Each method's
`ensures` ties it to a recursive specification function, and the lemmas
state the properties of those functions. The environment, the file system
(`glob.glob`, `os.access`), the schema validator and the params-file path
are parameters.

## Model

| member | source | states |
|---|---|---|
| NextflowSpawner.LaunchCommand | src/nextflowspawner/__init__.py:19-28 | Without `NXF_USER_WORKFLOW`, and only then, the result is KeyError. Otherwise the command starts with `nextflow run <workflow> --SOCKET={unix_socket} -resume`. |
| NextflowSpawner.LaunchCommandFlags | src/nextflowspawner/__init__.py:21-28 | After the five fixed words, only `-r`, `-params-file`, `-with-weblog` and `-profile` occur as flags. Each is present exactly when its `NXF_USER_*` variable is set, and carries that variable's value. |
| NextflowSpawner.FlagValuesAppend | src/nextflowspawner/__init__.py:21-28 | Appending a flag pair adds exactly that flag to the flags read back from the command. |
| NextflowSpawner.Ignite | src/nextflowspawner/__init__.py:14-36 | The proxy configuration: the launch command, timeout 120, launcher title `Nextflow`, and both socket switches on. A missing workflow raises KeyError. |
| NextflowSpawner.SpawnerEnv | src/nextflowspawner/__init__.py:225-236 | The new keys are HOME, NXF_HOME, the workflow, the revision and the params file. The endpoint and profile are added only when configured (truthy). Every other inherited variable is unchanged. |
| NextflowSpawner.GetEnv | src/nextflowspawner/__init__.py:225-236 | The environment is built by successive assignments and equals SpawnerEnv. |
| NextflowSpawner.LaunchCommandOfSpawnerEnv | src/nextflowspawner/__init__.py:19-28 | On the environment get_env produces, the command always has `-r <revision> -params-file <file>`. It has `-with-weblog` and `-profile` when configured or inherited. |
| NextflowSpawner.DefinitionGroups | src/nextflowspawner/__init__.py:107 | The groups come from `$defs` when present, else from `defs`. With neither key the result is KeyError('defs'). |
| NextflowSpawner.Project | src/nextflowspawner/__init__.py:112 | With no key, the whole descriptor. With a key, that field of the descriptor, or None when it is missing; projection never fails. |
| NextflowSpawner.NestedSchema | src/nextflowspawner/__init__.py:115 | The one-group schema built for the recursion is exactly four units larger than the descriptor it wraps. The walk's termination measure relies on this bound. |
| NextflowSpawner.GetParamsFromSchema | src/nextflowspawner/__init__.py:105-116 | The nested loops that fill `params_dict`, merging nested walks in place, compute SchemaParams. |
| NextflowSpawner.NestedSchemaParams | src/nextflowspawner/__init__.py:115 | Walking the wrapper schema of an object property gives one entry, keyed by the property, holding the walk of its own `properties`. |
| NextflowSpawner.PropertyParamsStep | src/nextflowspawner/__init__.py:110-115 | One property step adds that property's entry, or it stops with that entry's error. |
| NextflowSpawner.PropertyParamsKeys | src/nextflowspawner/__init__.py:110-115 | A group's keys are its properties, in declared order. |
| NextflowSpawner.PropertyParamsLookup | src/nextflowspawner/__init__.py:111-115 | Each property maps to its entry: the projected descriptor, or for an object property its nested walk. Other keys are untouched. |
| NextflowSpawner.GroupParamsStep | src/nextflowspawner/__init__.py:108-109 | One group step assigns the group's entry, or it stops with that entry's error. |
| NextflowSpawner.GroupParamsKeys | src/nextflowspawner/__init__.py:108-109 | The result has one key per group, in order. |
| NextflowSpawner.GroupParamsLookup | src/nextflowspawner/__init__.py:108-115 | Each group name maps to the walk of that group's properties. |
| NextflowSpawner.SchemaParamsGroups | src/nextflowspawner/__init__.py:107-109 | The walk's keys are exactly the definition group names. |
| NextflowSpawner.SchemaParamsMissingDefs | src/nextflowspawner/__init__.py:107-108 | With no `$defs` or `defs` the walk raises KeyError('defs'). If the groups are not a mapping it raises AttributeError. |
| NextflowSpawner.SchemaParamsEntry | src/nextflowspawner/__init__.py:109-115 | `result[g][p]` is the projected descriptor of a plain property. For an object property it is the walk of the property's own `properties`. |
| NextflowSpawner.SchemaParamsAnyKey | src/nextflowspawner/__init__.py:105-116 | Whether the walk succeeds does not depend on the projected key. |
| NextflowSpawner.GroupParamsAnyKey | src/nextflowspawner/__init__.py:108-115 | The same, for the loop over groups. |
| NextflowSpawner.PropertyParamsAnyKey | src/nextflowspawner/__init__.py:110-115 | The same, for the loop over properties. |
| NextflowSpawner.HelpText | src/nextflowspawner/__init__.py:141-142 | The help line is non-empty exactly when `help_text` is truthy. |
| NextflowSpawner.ConstructFormField | src/nextflowspawner/__init__.py:118-150 | Appending to the `html` list, with recursion into nested members, computes FormField. |
| NextflowSpawner.ConstructLeafField | src/nextflowspawner/__init__.py:123-142 | The leaf arm computes LeafField. |
| NextflowSpawner.ConstructNestedFields | src/nextflowspawner/__init__.py:143-149 | The recursive arm concatenates the members' renderings. |
| NextflowSpawner.OptionsFormDefault | src/nextflowspawner/__init__.py:164-174 | The loop over groups computes OptionsForm. |
| NextflowSpawner.OptionTagsConcat | src/nextflowspawner/__init__.py:128-129 | The options of two choice lists in sequence are the two renderings in sequence. |
| NextflowSpawner.OptionTagsAt | src/nextflowspawner/__init__.py:128-129 | The k-th choice renders as the k-th option, between the options before it and after it: declared order. |
| NextflowSpawner.HiddenRendersNothing | src/nextflowspawner/__init__.py:121-122 | A descriptor with `hidden` renders as the empty string, whatever else it has. |
| NextflowSpawner.NestedFieldsSkipHidden | src/nextflowspawner/__init__.py:143-149 | Removing a hidden member from a nested mapping does not change its rendering. |
| NextflowSpawner.LeafRendering | src/nextflowspawner/__init__.py:123-142 | A leaf is a label, then a select list when `enum` is truthy, else an input whose kind follows the type (number / text / checkbox, none for other types) and carries the default, then the help line. |
| NextflowSpawner.IncompleteLeafFails | src/nextflowspawner/__init__.py:123-147 | A descriptor without all of type, description and default falls to the recursive arm. If the first member is not a mapping, that arm raises AttributeError. |
| NextflowSpawner.FormCardsStep | src/nextflowspawner/__init__.py:166-173 | A group adds a card exactly when its rendering is non-empty. |
| NextflowSpawner.FormCardsAllHidden | src/nextflowspawner/__init__.py:166-173 | Groups that render nothing add nothing to the form. |
| NextflowSpawner.Card | src/nextflowspawner/__init__.py:169-173 | The card is empty exactly when the category is. |
| NextflowSpawner.CastSchemaType | src/nextflowspawner/__init__.py:177-186 | Only the integer and number casts can fail. An integer cast that succeeds yields an int. |
| NextflowSpawner.CastBooleanText | src/nextflowspawner/__init__.py:179-180 | A submitted string is true exactly when it is non-empty, so `"false"` is true. |
| NextflowSpawner.CastIntegerRoundTrip | src/nextflowspawner/__init__.py:181-182 | `int()` reads back any rendered integer, and keeps an int unchanged. |
| NextflowSpawner.CastIntegerRejects | src/nextflowspawner/__init__.py:181-182 | Text that is not an integer literal raises ValueError. |
| NextflowSpawner.CastOtherKeepsText | src/nextflowspawner/__init__.py:185-186 | Any type other than boolean, integer and number keeps the submitted text. |
| NextflowSpawner.Contains | src/nextflowspawner/__init__.py:191 | `'type' in properties` is key membership on a mapping. On None, a bool or a number it raises TypeError. |
| NextflowSpawner.CheckExistsAsWritten | src/nextflowspawner/__init__.py:198-204 | The check passes, returning the value, exactly when the value is a path whose glob matches and `os.access` grants reading its `os.path.dirname`. No match raises FileNotFoundError `<path> does not exist.`. A refused directory raises PermissionError with the literal text `{value} is not readable.`. |
| NextflowSpawner.BareNameRejected | src/nextflowspawner/__init__.py:202-204 | A path without `/` that matches the glob is always refused: its directory is the empty path, which `os.access` never grants. |
| NextflowSpawner.BareNameRejectedExample | src/nextflowspawner/__init__.py:202-204 | `reads.fq` is refused even when it exists and every file is readable. |
| NextflowSpawner.UnreadableMessageIsPlaceholder | src/nextflowspawner/__init__.py:203 | For `/data/reads.fq` in an unreadable directory, the message is the placeholder text, not the path. |
| NextflowSpawner.CheckedDir | src/nextflowspawner/__init__.py:202 | The directory the corrected check reads: the path's dirname, or the working directory `.` for a bare file name. |
| NextflowSpawner.CheckExists | src/nextflowspawner/__init__.py:198-204 | The corrected check, which the resolution does not use. It passes, returning the value, exactly when the path's glob matches and its CheckedDir is readable. No match raises FileNotFoundError `<path> does not exist.`. A refused directory raises PermissionError `<path> is not readable.`. For a path containing `/` it passes exactly when the as-written check does. |
| NextflowSpawner.BareNameAccepted | src/nextflowspawner/__init__.py:202 | With the correction, a bare file name that matches and sits in a readable working directory passes. |
| NextflowSpawner.ApplyFormParams | src/nextflowspawner/__init__.py:188-208 | The loop computes ApplyParams: the parameter dict, and the form lists left after `pop(0)`. Parameters marked `exists` go through the check as written, so a refused directory raises the literal `{value} is not readable.`. |
| NextflowSpawner.ApplyTypedLookup | src/nextflowspawner/__init__.py:190-206 | Each typed parameter maps to the cast of its first submitted value, or, when nothing was submitted, to the cast of its default. Other keys are untouched. |
| NextflowSpawner.ApplyEarlyReturn | src/nextflowspawner/__init__.py:191-193 | A member without `type` returns a dict holding only that member: the other parameters at that level are dropped. Its value is the nested resolution of its own properties on the form the typed members before it left, and that nested resolution consumes the rest of the form. |
| NextflowSpawner.IntegerWithoutDefaultFails | src/nextflowspawner/__init__.py:181-195 | An `integer` parameter with no default that nobody submitted reaches `int(None)`, which raises TypeError and ends the resolution. |
| NextflowSpawner.ApplyMembersDistinct | src/nextflowspawner/__init__.py:190-206 | The resolved dict has no repeated keys. |
| NextflowSpawner.ApplyParamsDistinct | src/nextflowspawner/__init__.py:188-208 | The same, for a whole group. |
| NextflowSpawner.ResolveGroupsSnoc | src/nextflowspawner/__init__.py:213-214 | One more group resolves against the form its predecessors left, and is merged into the options. |
| NextflowSpawner.LaterGroupOverrides | src/nextflowspawner/__init__.py:213-214 | A key of the later group takes its value; every other key keeps the earlier value. |
| NextflowSpawner.ResolveGroupsPrefixOk | src/nextflowspawner/__init__.py:213-214 | If resolving all groups succeeds, resolving any prefix of them succeeds. |
| NextflowSpawner.WithEmail | src/nextflowspawner/__init__.py:217-218 | `EMAIL` is the configured address when `NXF_USER_EMAIL` is set. Without it the options are unchanged. No other key changes. |
| NextflowSpawner.OptionsFromForm | src/nextflowspawner/__init__.py:176-223 | The method computes FormOptions: the result, and the form after all pops. The `exists` checks are the ones as written (CheckExistsAsWritten), placeholder message and bare-name refusal included. |
| NextflowSpawner.FormOptionsResult | src/nextflowspawner/__init__.py:210-223 | A successful result passed validation. `EMAIL` is set when configured. Without it the result is the resolved groups; with it every key but `EMAIL` still is. |
| NextflowSpawner.FormOptionsRejected | src/nextflowspawner/__init__.py:221 | Options the validator rejects give ValidationError. |
| LegacyNextflowSpawner.NestedSchema | nextflowspawner/__init__.py:47 | The one-group schema built for the recursion is exactly four units larger than the properties it wraps. The walk's termination measure relies on this bound. |
| LegacyNextflowSpawner.GetParamsFromSchema | nextflowspawner/__init__.py:40-48 | The loop over `schema['defs'].values()` computes SchemaParams. |
| LegacyNextflowSpawner.AddGroup | nextflowspawner/__init__.py:43-47 | One group's iteration computes GroupStep: the flat assignments, or the nested walk stored under the title. |
| LegacyNextflowSpawner.FlatParamsLookup | nextflowspawner/__init__.py:44-45 | Each parameter of a flat group maps to its projected descriptor. Every other name keeps its earlier entry. |
| LegacyNextflowSpawner.GroupsParamsSnoc | nextflowspawner/__init__.py:42-47 | One more group continues from the mapping the earlier groups built. |
| LegacyNextflowSpawner.LaterGroupOverrides | nextflowspawner/__init__.py:42-45 | A parameter in a later flat group overrides an earlier one with the same name. Every other name keeps its entry. |
| LegacyNextflowSpawner.NestedGroupIsFlat | nextflowspawner/__init__.py:43-47 | The nested walk of an object-typed `properties` mapping is the flat walk of its own `properties`, when that inner `properties` is a mapping that is not itself object-typed. `type` is read from the `properties` mapping itself. |
| LegacyNextflowSpawner.MissingDefs | nextflowspawner/__init__.py:42 | A schema without `defs` raises KeyError('defs'). |
| LegacyNextflowSpawner.ConvertKinds | nextflowspawner/__init__.py:50-59 | With no value: boolean → checkbox, integer and number → number, anything else → text. |
| LegacyNextflowSpawner.ConvertAgreesWithCurrent | nextflowspawner/__init__.py:50-59 | With a value, the cast is the current CastSchemaType: truthiness, `int()`, `float()`, or `str()`. |
| LegacyNextflowSpawner.ConvertUntypedKeepsText | nextflowspawner/__init__.py:58-59 | A submitted name the schema does not type (type None) keeps its text. |
| LegacyNextflowSpawner.LabelIf | nextflowspawner/__init__.py:64 | The label is emitted exactly when `description` is truthy. |
| LegacyNextflowSpawner.ConstructFormField | nextflowspawner/__init__.py:61-79 | Building and joining the `html` list computes FormField. |
| LegacyNextflowSpawner.ConstructFieldBody | nextflowspawner/__init__.py:65-76 | The arms of the match, in order: enum, type with default, then recursion into the members. |
| LegacyNextflowSpawner.OptionsFormDefault | nextflowspawner/__init__.py:93-98 | The loop over the flat parameters computes OptionsForm. |
| LegacyNextflowSpawner.FormFieldsConcat | nextflowspawner/__init__.py:96-97 | The form of a sequence of parameters is the form of its first part followed by the form of the rest: fields appear in walk order. |
| LegacyNextflowSpawner.FormFieldsSkipHidden | nextflowspawner/__init__.py:96-97 | A hidden parameter adds nothing to the form. |
| LegacyNextflowSpawner.FormFieldsAllHidden | nextflowspawner/__init__.py:96-98 | Parameters that are all hidden render the empty form. |
| LegacyNextflowSpawner.HiddenRendersNothing | nextflowspawner/__init__.py:64-67 | A descriptor with `hidden` renders `""`, even with a description whose label was already prepared. |
| LegacyNextflowSpawner.FormGroupWrapping | nextflowspawner/__init__.py:63-79 | Every other field is `<div class='form-group'>`, then the label exactly when `description` is truthy, then the body, then `</div>`. |
| LegacyNextflowSpawner.EnumBeforeType | nextflowspawner/__init__.py:68-72 | A field with `enum` is a select list with one option per choice in declared order, even when it has a type and a default. |
| LegacyNextflowSpawner.TypedInput | nextflowspawner/__init__.py:73-74 | Without `enum`, a type and a default give an input of the type's kind carrying the default. |
| LegacyNextflowSpawner.Dropped | nextflowspawner/__init__.py:105 | `v.pop()` shortens exactly the popped list by its last element. |
| LegacyNextflowSpawner.SubmittedParams | nextflowspawner/__init__.py:105 | The comprehension keeps the number and names of the form's fields. |
| LegacyNextflowSpawner.SubmittedFrame | nextflowspawner/__init__.py:105 | Fields already consumed are not touched again. A name not submitted later keeps its entry. |
| LegacyNextflowSpawner.SubmittedLast | nextflowspawner/__init__.py:105 | When names are distinct, each submitted field had a value. Its parameter is its last value, cast by its schema type, and its list lost exactly that value. |
| LegacyNextflowSpawner.SubmittedDistinct | nextflowspawner/__init__.py:105 | The submitted parameter dict has no repeated keys. |
| LegacyNextflowSpawner.PopSubmitted | nextflowspawner/__init__.py:105 | Popping each list of the Form in turn computes SubmittedParams and its form. |
| LegacyNextflowSpawner.CheckPath | nextflowspawner/__init__.py:110-115 | A path passes exactly when it is a string whose glob matches something and every match is readable. No match raises FileNotFoundError `<path> does not exist.`. |
| LegacyNextflowSpawner.FirstUnreadable | nextflowspawner/__init__.py:113-115 | No error exactly when `os.access` grants every match. Otherwise PermissionError names the first refused match in glob order. |
| LegacyNextflowSpawner.CheckFormats | nextflowspawner/__init__.py:108-115 | No error exactly when every submitted parameter of format `path` passes CheckPath. |
| LegacyNextflowSpawner.CheckSubmittedPaths | nextflowspawner/__init__.py:108-115 | The loop over the formats computes CheckFormats. |
| LegacyNextflowSpawner.CheckSubmittedPath | nextflowspawner/__init__.py:110-115 | The glob and the loop over its matches compute CheckPath. |
| LegacyNextflowSpawner.OptionsFromForm | nextflowspawner/__init__.py:100-127 | The method computes FormOptions: the result, and the form after all pops. |
| LegacyNextflowSpawner.FormOptionsOk | nextflowspawner/__init__.py:100-127 | Success means every walk succeeded and every path check passed. The result is the union of the defaults and the submitted parameters, with EMAIL added, and it passed validation. |
| LegacyNextflowSpawner.SubmittedOverDefaults | nextflowspawner/__init__.py:105-118 | In the union of the defaults and the submitted parameters, a submitted name maps to its last value cast by type. Every name not submitted keeps its default. |
| LegacyNextflowSpawner.FormOptionsResult | nextflowspawner/__init__.py:118-125 | A successful result passed validation, and `EMAIL` is set when configured. Every other name not submitted keeps its default, so every default key is present. |
| LegacyNextflowSpawner.FormOptionsSubmitted | nextflowspawner/__init__.py:105-122 | Each submitted field other than `EMAIL` resolves to its last value, cast by its schema type, over any default. |
| LegacyNextflowSpawner.FormOptionsPathsChecked | nextflowspawner/__init__.py:108-115 | In a successful result, every submitted `path`-format value is a string whose glob matches, and every match is readable. |
| LegacyNextflowSpawner.MissingPathRejected | nextflowspawner/__init__.py:108-115 | A failing check of a submitted `path` parameter rejects the whole form. |
| Python.IntCast | src/nextflowspawner/__init__.py:181-182 | `int()`: an int stays itself, and a bool becomes 1 or 0. Text succeeds exactly when it is an integer literal, giving its value, and otherwise raises ValueError carrying the text. None, lists and dicts raise TypeError. A float is the unsupported case. |
| Python.FloatCast | src/nextflowspawner/__init__.py:183-184 | `float()` yields a float or raises. |
| Python.ParseIntOfIntToString | src/nextflowspawner/__init__.py:182 | `int(str(n)) == n`. |
| Python.Iterate | src/nextflowspawner/__init__.py:128 | Iterating a list yields its items in order. None, bools and numbers raise TypeError. |
| Python.Dirname | src/nextflowspawner/__init__.py:202 | `os.path.dirname` yields a prefix of the path, and "" when the path has no `/`. |
| Python.LookupPut | src/nextflowspawner/__init__.py:112 | After `d[k] = v`, k reads v and every other key is unchanged. |
| Python.LookupMerge | nextflowspawner/__init__.py:118 | In the union of a and b, a key of b reads b's value and every other key reads a's. |
| Python.KeysMerge | src/nextflowspawner/__init__.py:115 | An in-place union has exactly the keys of both dicts. a's keys stay first and in place, and distinct keys stay distinct. |
| Python.KeysPut | src/nextflowspawner/__init__.py:112 | `d[k] = v` keeps the keys if k is present, else appends k at the end. |
| FormData.TakeFirst | src/nextflowspawner/__init__.py:195 | `get(name, [fallback]).pop(0)`: the fallback when nothing was submitted (form unchanged); IndexError for an empty list; otherwise the first value, with the list losing it. Other lists are unchanged. |
| FormData.TakeLast | nextflowspawner/__init__.py:105 | `v.pop()`: IndexError for an empty list; otherwise the last value, with the list losing it. |
| FormData.Form.PopFirstOr | src/nextflowspawner/__init__.py:195 | Popping through the form object changes its lists as TakeFirst says. |
| FormData.Form.PopLast | nextflowspawner/__init__.py:105 | Popping through the form object changes its lists as TakeLast says. |

## Left out

- `jsonschema.validate` is a foreign library. It is a parameter, a predicate over the options and the schema; rejection is a ValidationError.
- `glob.glob` and `os.access` are file-system I/O. They are the two functions of a FileSystem value, and matching is not modelled.
- `_write_params_file` is out: JSON serialisation, SHA-1 and the file write. The params-file path is a parameter of get_env.
- `super().get_env()` is out. The inherited environment is a parameter.
- `_default_schema`, `_default_home_dir`, `_default_nxf_home`, `_default_nxf_launch`, `_default_popen_kwargs` and `make_preexec_fn` are out: subprocesses, `pwd`, `os.getenv`, `makedirs`/`chown` and setuid. The traitlets machinery is out too.
- The legacy `get_env` (nextflowspawner/__init__.py:129-134) assigns three keys and is not part of this model.
- Python.FloatCast: floats are kept as their literal text. `float()` of a string is reported as an unsupported case instead of being parsed. Every submitted field of type `number` is text, so in both versions it fails in the model where Python would parse it.
- Python.IntCast: `int()` of a float is reported as an unsupported case instead of truncating toward zero.
- Python.Repr: strings inside lists and dicts are quoted without Python's escaping rules. Float literals are shown as written.
- Python.ParseInt: only ASCII digits and ASCII whitespace are recognised; Python also accepts Unicode digits and Unicode whitespace.
- LegacyNextflowSpawner.GroupStep: a nested group whose `title` is None, a bool or a number is hashable in Python. Here it is reported as an unsupported case, because dict keys are strings.
- HTML is plain string concatenation; the source escapes nothing, and neither does the model.
- Exceptions are error values: a field's form state after an exception is what the pops before it left.

## Findings

The resolution members model the code as written; the corrected check stands beside it.

| source | as written | input that shows it | evidently intended | confidence | as-written member | corrected member |
|---|---|---|---|---|---|---|
| src/nextflowspawner/__init__.py:203 | `msg = "{value} is not readable."` has no `f` prefix, so the message is the literal placeholder | a path parameter marked `exists`, such as `/data/reads.fq`, that matches the glob but whose directory is unreadable | the path in the message, as in the "does not exist." message two lines above and in the earlier version (nextflowspawner/__init__.py:115) | high; not executed | NextflowSpawner.CheckExistsAsWritten, NextflowSpawner.UnreadableMessageIsPlaceholder | NextflowSpawner.CheckExists |
| src/nextflowspawner/__init__.py:202 | `os.access(os.path.dirname(value), os.R_OK)` tests the empty path for a name without `/`, and `os.access` never grants the empty path | a parameter marked `exists` whose value is a bare file name such as `reads.fq`, present and readable in the working directory | a bare name is checked against the working directory that holds it | medium; not executed | NextflowSpawner.CheckExistsAsWritten, NextflowSpawner.BareNameRejected, NextflowSpawner.BareNameRejectedExample | NextflowSpawner.CheckExists, NextflowSpawner.BareNameAccepted |
