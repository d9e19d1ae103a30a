# JSON2obj configuration validation, in Dafny

This project models the core of JSON2obj, a Python library. It turns nested
dicts into attribute objects, and on top of that it validates configuration
documents against a template. It has four parts:

- **The document mapper.** This is `JSON2Obj`. A dict becomes an object
  whose attributes are its keys. Nested dicts become nested objects, lists
  are rebuilt item by item, and an env-var resolver is applied to each
  top-level value. `to_dict` converts the object back, `get` reads an
  attribute with a default, and `==` compares dict forms.
- **The env-var resolver.** `{"env_var": n}` stands for the value of the
  environment variable `n`. `{"enc_env_var": n}` stands for that value
  decrypted through KMS.
- **The template and defaults model** (`config_class.py`):
  - the nine `ConfigTypes` and value coercion (`check_value`);
  - `ConfigVariable` and its `to_dict`;
  - the template (`ConfigTemplateSection`, `ConfigTemplate`);
  - the parsed defaults document (`DefaultConfigFile`).
- **The validator** (`Configurator`):
  - It checks a defaults document against the template.
  - It reconciles a user document with the defaults, section by section and
    variable by variable. Along the way it fills in defaults, coerces values,
    and raises on missing sections and values.
  - It updates the caller's dict in place, and returns it wrapped in a
    `JSON2Obj`.
  - Around it sit the file-type checks of `files.py` and `Config2Obj`, and
    the merge that fills a user config from its template.

Python values are the datatype `Values.Value`:
- `None`, `bool`, `int`, `float`, `str` and lists;
- `Dict(entries, exact)`, a dict kept as an insertion-ordered list of pairs.
  `exact` records whether its type is exactly `dict` rather than a subclass
  such as a YAML mapping;
- `Obj(attrs)`, a `JSON2Obj` instance, kept as its attribute dict;
- `Variable(cv)`, a `ConfigVariable`.

A raised exception is the `Err` case of `Errors.Result`, carrying its kind:
KeyError, TypeError, ValueError or AttributeError. A fifth kind,
ImportError, is the missing-`boto3` error of `env_vars.py`; it can arrive
only through the host's `decrypt`.

The outside world arrives as a `Host` parameter:
- the environment (a map from names to strings);
- KMS decryption;
- `float()`;
- the text `str()` gives for floats, containers and objects.

The operations that change state in place are classes with `modifies`
clauses, each proved equal to a function of the old state:
- `JSON2Obj` fills its attributes in `__from_dict`.
- The template and the defaults file fill their dicts in loops.
- `Configurator` holds its template and fills the caller's dict (a `PyDict`).
- `Config2Obj` replaces its stored user config.

The properties are proved about those functions. The validator's are:
- the first missing section is reported;
- all missing required custom fields are reported together;
- a missing section raises KeyError exactly when a variable is
  `required is True` and required values are not ignored;
- the add-missing and strict rules for values;
- declared variables are written, and nothing else in a section changes;
- custom and unknown sections are never touched.

## Model

| member | source | states |
|---|---|---|
| Dicts.GetOr | src/json2obj/ObjectifyConfig/configurator.py:146 | `d.get(k, default)` gives the default exactly for an absent key, else the stored value |
| Dicts.Set | src/json2obj/ObjectifyConfig/configurator.py:126 | `d[k] = v`: `k` now holds `v`, every other key is unchanged, an existing key keeps its place and a new one goes last, distinct keys stay distinct |
| Dicts.Update | src/json2obj/ObjectifyConfig/config2obj.py:34 | `d.update(u)`: keys are those of `d` and `u`, `d`'s keys first in their order; for a `u` with distinct keys its values win; keys outside `u` keep `d`'s values; distinct keys stay distinct |
| Builtins.ToInt | src/json2obj/ObjectifyConfig/config_class.py:47-48 | `int(v)`: a success is an int; an int is returned as is; a failure is a ValueError for a str and a TypeError for anything else |
| Builtins.ParseIntToString | src/json2obj/ObjectifyConfig/config_class.py:47-48 | `int(str(n)) == n` for every int `n` |
| Builtins.Contains | src/json2obj/ObjectifyConfig/configurator.py:51 | `key in container`: defined exactly for a dict, a str or a list, any other container is a TypeError; for a dict it is key membership |
| EnvVars.CheckForEnvVars | src/json2obj/env_vars.py:33-57 | a value that is not exactly a `dict`, or a dict without either sentinel key, is returned unchanged; a resolved value is a str |
| EnvVars.EnvVarSentinel | src/json2obj/env_vars.py:45-50 | `{"env_var": n}` gives the value of `n`, an unset `n` is a KeyError naming it, whatever else the dict holds |
| EnvVars.EncEnvVarSentinel | src/json2obj/env_vars.py:51-56 | `{"enc_env_var": n}` without `env_var` gives the decryption of `n`'s value; an unset `n` is a KeyError; a decryption error other than KeyError passes through |
| Json2Obj.Resolve | src/json2obj/json2obj.py:99-100 | with no resolver or the default one, a value either stays the same or becomes a str |
| Json2Obj.Objectify | src/json2obj/json2obj.py:14-21 | a non-dict is a TypeError, an empty dict gives no attributes, any other dict goes through `__from_dict` |
| Json2Obj.FromDictResult | src/json2obj/json2obj.py:91-94 | a `__from_dict` key is a KeyError naming it, and otherwise a `__to_dict` key is; both are raised before any attribute is set |
| Json2Obj.StaticFromDict | src/json2obj/json2obj.py:69-80 | `from_dict` always raises TypeError: it builds an object with no data first |
| Json2Obj.DictFields | src/json2obj/json2obj.py:28-31 | the exported fields are exactly the attribute names starting with neither `__` nor `_JSON2Obj` |
| Json2Obj.ToDictKeys | src/json2obj/json2obj.py:121-135 | `to_dict` has exactly the fields `__dict_fields__` lists, in order |
| Json2Obj.AsDictDistinct | src/json2obj/json2obj.py:121-135 | distinct attribute names give distinct `to_dict` keys |
| Json2Obj.JSON2Obj.New | src/json2obj/json2obj.py:14-21 | a new object whose attributes are what the constructor produces, or its exception |
| Json2Obj.JSON2Obj.FromDict | src/json2obj/json2obj.py:82-110 | the reserved-key check, then the attribute loop, on the object's own attributes |
| Json2Obj.JSON2Obj.SetAttributes | src/json2obj/json2obj.py:96-110 | the `setattr` loop: each value is resolved, then wrapped, then set, and the first exception stops it |
| Json2Obj.JSON2Obj.WrapValue | src/json2obj/json2obj.py:102-108 | the value stored for an attribute is the one `Wrap` gives: a dict as a new object with the default resolver, a list rebuilt |
| Json2Obj.JSON2Obj.FromList | src/json2obj/json2obj.py:47-67 | the list rebuilt item by item: a dict item is a TypeError, inner lists are rebuilt, scalars kept |
| Json2Obj.JSON2Obj.ToDict | src/json2obj/json2obj.py:121-135 | the output dict filled field by field equals the object's dict form |
| Json2Obj.WrapPortable | src/json2obj/json2obj.py:102-108 | a portable dict or list wraps without error into its nested-object form |
| Json2Obj.ObjectifyPortable | src/json2obj/json2obj.py:96-110 | a portable dict becomes an object whose attributes are its entries with nested dicts wrapped |
| Json2Obj.RoundTrip | src/json2obj/json2obj.py:121-135 | `to_dict(JSON2Obj(d)) == d` for a portable `d`: no reserved or hidden keys, no sentinels, no dicts inside lists |
| Json2Obj.GetStored | src/json2obj/json2obj.py:140-152 | `get` returns the stored value of a key, even one named like a method |
| Json2Obj.GetDefault | src/json2obj/json2obj.py:140-152 | `get` of a key neither stored nor defined by the class returns the default |
| Json2Obj.EnvVarAttribute | src/json2obj/json2obj.py:96-100 | an env-var sentinel given as a top-level value becomes the variable's value, or a KeyError |
| Json2Obj.EqualsReflexive | src/json2obj/json2obj.py:23-26 | every object equals itself and its own dict form |
| Json2Obj.EqualsInput | src/json2obj/json2obj.py:23-26 | `JSON2Obj(d) == d` for a portable `d` |
| ConfigClass.ParseConfigType | src/json2obj/ObjectifyConfig/config_class.py:20-29 | `ConfigTypes(s)` succeeds exactly for the nine type strings and gives the type named by `s`; anything else is a ValueError |
| ConfigClass.TypeNameRoundTrip | src/json2obj/ObjectifyConfig/config_class.py:20-29 | every type is found again from its string |
| ConfigClass.ToBool | src/json2obj/ObjectifyConfig/config_class.py:56-63 | a bool passes through; True exactly for yes/y/true and False exactly for no/n/false, case-insensitively; anything else is a TypeError |
| ConfigClass.MapEach | src/json2obj/ObjectifyConfig/config_class.py:69-83 | a list comprehension: same length and item-wise results, or the first item's exception |
| ConfigClass.CheckValue | src/json2obj/ObjectifyConfig/config_class.py:32-85 | int, bool and string coercion; every list type refuses a non-list with TypeError; `list` returns the input; `list.string` and `list.int` map item by item; `list.bool` accepts only `[]` |
| ConfigClass.CheckValueReadsBack | src/json2obj/ObjectifyConfig/config_class.py:47-63 | the `str()` text of an int, bool or str coerces back to the same value |
| ConfigClass.CheckValueIdempotent | src/json2obj/ObjectifyConfig/config_class.py:32-85 | coercing a coerced value again changes nothing, for every type without floats |
| ConfigClass.NewConfigVariable | src/json2obj/ObjectifyConfig/config_class.py:89-109 | keyword binding errors are TypeErrors, a missing `meta_data` fails, the type is parsed from its string, defaults are `False`/`False`/`None` |
| ConfigClass.NewConfigVariableStores | src/json2obj/ObjectifyConfig/config_class.py:89-109 | a `meta_data` that is not a dict (absent, None, a number, a list) is refused; a built variable stores the supplied `description`, `default`, `default_none_okay`, `required` and `example`, or their defaults, and the mapper's attributes of `meta_data` |
| ConfigClass.VariableToDictFixed | src/json2obj/ObjectifyConfig/config_class.py:122-127 | `to_dict` always has `name` and the type string, `required` exactly when truthy, `default_none_okay` exactly when truthy |
| ConfigClass.VariableToDictOptional | src/json2obj/ObjectifyConfig/config_class.py:128-131 | `description` and `example` appear exactly when not None |
| ConfigClass.VariableToDictDefault | src/json2obj/ObjectifyConfig/config_class.py:126-131 | `default` appears exactly when it is not None or `default_none_okay` is truthy |
| ConfigClass.VariableToDictKeys | src/json2obj/ObjectifyConfig/config_class.py:122-132 | no other key appears |
| ConfigClass.ParseField | src/json2obj/ObjectifyConfig/config_class.py:135-139 | a field binds exactly when its arguments are keywords without `name`/`self`; `default` defaults to None and `required` to False |
| ConfigClass.ParseEach | src/json2obj/ObjectifyConfig/config_class.py:148-151 | a parse loop succeeds exactly when every item parses, fails with some item's exception, and keeps keys distinct |
| ConfigClass.ParseEachUpdate | src/json2obj/ObjectifyConfig/config_class.py:164-165 | the parse loop is `update` with the parsed items |
| ConfigClass.ParsedDict | src/json2obj/ObjectifyConfig/config_class.py:148-151 | a parsed dict has exactly the input's keys, each holding its parsed value |
| ConfigClass.ParseSection | src/json2obj/ObjectifyConfig/config_class.py:142-154 | "variable" gives a section without fields, "custom" one with a field map, any other type a TypeError |
| ConfigClass.CustomSectionFields | src/json2obj/ObjectifyConfig/config_class.py:148-151 | a custom section has exactly one field per item of `fields`, parsed from it |
| ConfigClass.ParseTemplate | src/json2obj/ObjectifyConfig/config_class.py:157-169 | the template parses exactly when every section does; section names are distinct |
| ConfigClass.BuildSection | src/json2obj/ObjectifyConfig/config_class.py:142-154 | the constructor's fields loop computes `ParseSection` |
| ConfigClass.BuildTemplate | src/json2obj/ObjectifyConfig/config_class.py:157-169 | the constructor's sections loop computes `ParseTemplate` |
| ConfigClass.AddVariablesShape | src/json2obj/ObjectifyConfig/config_class.py:184-188 | every entry of a variable section becomes the `ConfigVariable` named by its key |
| ConfigClass.DefaultSectionsShape | src/json2obj/ObjectifyConfig/config_class.py:181-188 | the sections loop builds each template section as `DefaultConfigFileShape` states |
| ConfigClass.DefaultConfigFileShape | src/json2obj/ObjectifyConfig/config_class.py:174-188 | custom sections are stored verbatim (None when absent), variable entries become `ConfigVariable`s, an empty variable section is omitted, no section outside the template appears |
| ConfigClass.DefaultConfigFile.New | src/json2obj/ObjectifyConfig/config_class.py:174-188 | the constructor's loop builds exactly the sections of `DefaultSections` |
| ConfigClass.DefaultConfigFile.AddSection | src/json2obj/ObjectifyConfig/config_class.py:184-188 | the inner loop adds a variable section's `ConfigVariable`s, creating the section dict on first need |
| ConfigClass.DefaultConfigFile.GetObj | src/json2obj/ObjectifyConfig/config_class.py:190-191 | `get_obj` wraps the sections with the default resolver |
| Configurator.MissingFields | src/json2obj/ObjectifyConfig/configurator.py:47-53 | for a dict section, exactly the required fields absent from it are reported, and only declared required fields ever are |
| Configurator.CheckDefaults | src/json2obj/ObjectifyConfig/configurator.py:44-56 | returns True exactly when every template section is present and no custom section misses a required field |
| Configurator.CheckDefaultsMissingFields | src/json2obj/ObjectifyConfig/configurator.py:47-55 | the first custom section with missing required fields raises one KeyError naming all of them, in declaration order |
| Configurator.CheckDefaultsFirstMissing | src/json2obj/ObjectifyConfig/configurator.py:44-46 | the first missing section is the KeyError raised |
| Configurator.CheckedCustomFieldsPresent | src/json2obj/ObjectifyConfig/configurator.py:47-55 | after the check, every required custom field is present in the defaults |
| Configurator.SectionKind | src/json2obj/ObjectifyConfig/configurator.py:133 | the template's section under a name, or a KeyError |
| Configurator.VarConfig | src/json2obj/ObjectifyConfig/configurator.py:120-122 | only a nested object under the name has a `to_dict`; anything else is an AttributeError |
| Configurator.AnyRequired | src/json2obj/ObjectifyConfig/configurator.py:123 | True exactly when some variable has `required is True` |
| Configurator.Presence | src/json2obj/ObjectifyConfig/configurator.py:116-131 | a present section or a custom one is left alone; only the checked section may change; a section outside the template is a KeyError |
| Configurator.PresenceOfVariableSection | src/json2obj/ObjectifyConfig/configurator.py:116-131 | a missing variable section raises KeyError exactly when a variable is `required is True` and `ignore_required` is false; otherwise it is inserted empty |
| Configurator.LookupUser | src/json2obj/ObjectifyConfig/configurator.py:146 | a dict section (or none) gives the stored value or None |
| Configurator.Reconcile | src/json2obj/ObjectifyConfig/configurator.py:147-162 | add-missing and strict rules for a value; in strict mode a required variable without `default_none_okay` ends up truthy |
| Configurator.UpdateSection | src/json2obj/ObjectifyConfig/configurator.py:163 | `user[section].update({sub: v})` changes only that section's key |
| Configurator.FillOne | src/json2obj/ObjectifyConfig/configurator.py:146-163 | one variable: read, settled and written back, nothing else changes |
| Configurator.FillSectionFrame | src/json2obj/ObjectifyConfig/configurator.py:145-163 | the inner loop writes only its own section |
| Configurator.FillSectionContents | src/json2obj/ObjectifyConfig/configurator.py:145-163 | a filled section holds each declared variable's settled value; undeclared user keys keep their values |
| Configurator.FillSectionKeys | src/json2obj/ObjectifyConfig/configurator.py:145-163 | the inner loop never removes a key |
| Configurator.ValidateSectionsFrame | src/json2obj/ObjectifyConfig/configurator.py:133-140 | custom sections and sections outside the template are left as the user wrote them, or absent, even when validation raises |
| Configurator.ValidateSectionsKeys | src/json2obj/ObjectifyConfig/configurator.py:115-163 | validation never removes a key from the user's dict |
| Configurator.ValidateSectionsPresent | src/json2obj/ObjectifyConfig/configurator.py:115-131 | after a validation that does not raise, every listed variable section is present |
| Configurator.ValidateLeavesOtherSections | src/json2obj/ObjectifyConfig/configurator.py:115-165 | the whole validation never touches a non-variable section |
| Configurator.Configurator.FromDict | src/json2obj/ObjectifyConfig/configurator.py:27-28 | a Configurator whose template is parsed from the dict, or the parse error |
| Configurator.Configurator.CheckDefaultConfig | src/json2obj/ObjectifyConfig/configurator.py:32-56 | the check loop computes `CheckDefaults` |
| Configurator.Configurator.ReadDefaultConfig | src/json2obj/ObjectifyConfig/configurator.py:58-72 | the check first, then a new `DefaultConfigFile` |
| Configurator.Configurator.GetUserConfig | src/json2obj/ObjectifyConfig/configurator.py:84-88 | a dict is returned as the same object; anything else is a TypeError |
| Configurator.Configurator.EnsureSection | src/json2obj/ObjectifyConfig/configurator.py:116-131 | the presence check on the caller's dict, in place |
| Configurator.Configurator.FillVariables | src/json2obj/ObjectifyConfig/configurator.py:145-163 | the inner loop on the caller's dict, in place, stopping at the first exception |
| Configurator.Configurator.ValidateUserConfig | src/json2obj/ObjectifyConfig/configurator.py:90-165 | the caller's dict ends as `Validate` says, also when an exception ends validation; the result wraps that dict |
| Files.PathName | src/json2obj/files.py:21 | the last path component has no slash and is never `.` |
| Files.Suffix | src/json2obj/files.py:23 | a suffix is empty or a dot followed by at least one character and no other dot |
| Files.GetFileType | src/json2obj/files.py:20-25 | JSON exactly for a `.json` suffix and YAML exactly for `.yaml`, in any case; anything else is a TypeError |
| Files.GetFileObjects | src/json2obj/files.py:48-54 | the JSON handler for JSON, the YAML handler for YAML, for that path |
| Files.WriteDictToFile | src/json2obj/files.py:35-44 | an unsupported path is refused before any handler is made; otherwise the data goes to `get_file_objects`' handler |
| Files.FileTypeRoundTrip | src/json2obj/files.py:20-23 | a file named with a type's suffix is read as that type |
| Files.ShortYamlRefused | src/json2obj/files.py:24-25 | `.yml` is refused |
| Files.NoSuffixRefused | src/json2obj/files.py:24-25 | for every directory, a file whose name has no dot is refused |
| Files.DotFileRefused | src/json2obj/files.py:24-25 | for every directory and extension, a dot file such as `.json` has no suffix and is refused |
| Files.SuffixCaseIgnored | src/json2obj/files.py:20-23 | `.JSON` is JSON |
| Config2Obj.GetFileType | src/json2obj/ObjectifyConfig/config2obj.py:46-51 | accepted exactly for `.yaml`/`.json` in any case; the type is the lowercased suffix without its dot; anything else is a TypeError |
| Config2Obj.GetFileTypeAgrees | src/json2obj/ObjectifyConfig/config2obj.py:47-51 | this check and the one of `files.py` accept the same paths and name the same type |
| Config2Obj.CheckFiles | src/json2obj/ObjectifyConfig/config2obj.py:53-59 | the shared type when both files have it; the first file's error, then the second's, then a TypeError for a mismatch |
| Config2Obj.MergeUserWins | src/json2obj/ObjectifyConfig/config2obj.py:31-34 | the merged dict holds every exported field of either object, the template's first and in their order; on a shared field the user's value wins, and the template's other fields keep their values |
| Config2Obj.Config2Obj.New | src/json2obj/ObjectifyConfig/config2obj.py:14-29 | the type check comes first: a bad pair of paths is refused whatever loading would do; then the user file and the template are loaded with that type |
| Config2Obj.Config2Obj.UpdateUserConfigFromTemplate | src/json2obj/ObjectifyConfig/config2obj.py:31-42 | the merge replaces the user config only when `update` is set; `save` changes nothing; the template is unchanged |

## Behaviour followed from the code

The model follows these behaviours of the code as written:

- `list.bool` accepts only the empty list. The item check calls
  `isinstance(bool, v)` with its arguments swapped, which raises TypeError
  for every item (config_class.py:33-35).
- A `ConfigVariable` without `meta_data` cannot be built. `JSON2Obj(None, None)`
  raises TypeError.
- Env-var sentinels are resolved only in dicts of type exactly `dict`, so a
  YAML mapping subclass is kept as it is.
- A dict inside a list fails. `from_dict` first builds an object with no data,
  which raises TypeError.
- In strict mode a `string` variable coerces a missing value, None, to the
  text "None", which is truthy.
- A variable section with no entries in the defaults is left out of
  `DefaultConfigFile.sections`. Validation then never visits it.

## Left out

- File I/O is not part of this model, including the path forms of every
  argument that accepts a path (a `str`):
  - `yaml_file.py`, `json_file.py` and `yaml.py`;
  - `read_raw_file`, `write_object_to_file`, and the handlers' reads and
    writes;
  - the `ConfigTemplate(file_name=…)` form.

  `Config2Obj` receives loading as a `load` parameter. `write_dict_to_file`
  ends at the write it asks of a handler.
- `JSON2Obj.from_string`: JSON text parsing is outside the model.
- In this snapshot `json_file.py` defines only `read_json_file` and no
  `JsonFile` class. `files.py:6`, `config_class.py:15` and `config2obj.py:7`
  import `JsonFile` from it, so importing those modules raises ImportError,
  and `configurator.py:11` fails with them. The import failure is not
  modelled: `Files.Handler.JsonFile` and the `load` parameter of `Config2Obj`
  assume a JSON handler with the interface of `YamlFile`.
- `create_sample_config_file` and `_add_comments_and_examples` are left out:
  they use the file system, YAML comment handling and `print`.
  - `create_sample_config_file` calls the validator with an empty dict,
    `add_missing=True` and `ignore_required=True`.
- `decode_kms` is left out: KMS and base64 are foreign calls, so decryption is
  the host's `decrypt`.
- `float()` and the `float` and `list.float` types come from the host's
  `toFloat`. The text `str()` gives for floats, containers and objects comes
  from the host's `repr`. No floating-point arithmetic is modelled.
- `int()` of a string covers ASCII decimal numerals only: white space at the
  ends, a sign, and single underscores between digits. Other Unicode digits
  are not modelled.
- `lower()` lowers ASCII letters only. The comparisons it feeds are against
  ASCII words, and they decide the same.
- Paths are parsed as POSIX paths; Windows paths are not modelled.
- `Configurator.__init__` is modelled for a dict argument (`FromDict`) and for
  an already parsed template (the constructor). An argument of any other type
  leaves `config_template` unset, which is not modelled.
- The `ConfigVariable.value` setter calls itself without end and is never
  used. The `_value` slot is left out too.
- Logging calls and `__repr__` are left out.
- Nested dicts are values, so sharing is modelled only for the caller's
  top-level user dict. An update to a section dict that the caller also
  holds under another name is not visible in the model.
- Data keys that collide with Python internals are not modelled: an input
  key named `_JSON2Obj__env_var_function`, `__dict__` or `__class__` would
  change the object itself.
- The class attributes that `get` can find (`ClassAttributes`) are fixed to
  the methods and dunder names JSON2Obj defines. Those that vary with the
  Python version are not tracked.
- Configurator.FillOne: a declared entry that is not a `ConfigVariable` is
  treated as an AttributeError as a whole. This cannot happen, because
  variable sections hold only `ConfigVariable`s.
- Configurator.LookupUser: a nested object in the user's dict is a TypeError,
  because its static `get` lacks an argument. A stored attribute named `get`
  that could be called is not modelled.
- Configurator.Reconcile: in add-missing mode, the contract leaves open one
  case. When `float()` coerces a truthy value to None, the value falls back
  to the default unless `default_none_okay is True`. That case only arises
  through the host's `float()`.
- Json2Obj.DataEq compares `Variable` values by their fields. `ConfigVariable`
  defines no `__eq__`, so Python compares two of them by identity: two
  `get_obj()` results built from the same defaults compare unequal in Python
  and equal in the model. Object identity is not modelled; floats have no NaN
  either.
- Json2Obj.JSON2Obj.ToDict requires distinct attribute names. An attribute
  dict has them by construction.
- Config2Obj.MergeUserWins requires distinct attribute names in the user
  object for the same reason.
