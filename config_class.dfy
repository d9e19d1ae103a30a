/** Configuration descriptors: the nine value types and the coercion into
    them, a declared variable, the parsed template and the parsed
    defaults document. */
module ConfigClass {
  import opened Errors
  import opened Values
  import opened Dicts
  import opened Builtins
  import Json2Obj

  /** `ConfigTypes(t).value` */
  function TypeName(t: ConfigType): string {
    match t
    case IntType => "int"
    case FloatType => "float"
    case StringType => "string"
    case BoolType => "bool"
    case ListType => "list"
    case StringListType => "list.string"
    case IntListType => "list.int"
    case FloatListType => "list.float"
    case BoolListType => "list.bool"
  }

  const TypeNames: seq<string> :=
    ["int", "float", "string", "bool", "list", "list.string", "list.int", "list.float", "list.bool"]

  /** `ConfigTypes(v)`: the member whose value is `v`, else ValueError. */
  function ParseConfigType(v: Value): (r: Result<ConfigType>)
    ensures r.Ok? <==> v.Str? && v.s in TypeNames
    ensures r.Ok? ==> v == Str(TypeName(r.value))
    ensures r.Err? ==> r.error.kind == ValueError
  {
    if v == Str("int") then Ok(IntType)
    else if v == Str("float") then Ok(FloatType)
    else if v == Str("string") then Ok(StringType)
    else if v == Str("bool") then Ok(BoolType)
    else if v == Str("list") then Ok(ListType)
    else if v == Str("list.string") then Ok(StringListType)
    else if v == Str("list.int") then Ok(IntListType)
    else if v == Str("list.float") then Ok(FloatListType)
    else if v == Str("list.bool") then Ok(BoolListType)
    else Err(Error(ValueError, if v.Str? then [v.s] else []))
  }

  /** Every type is found again from its name. */
  lemma TypeNameRoundTrip(t: ConfigType)
    ensures ParseConfigType(Str(TypeName(t))) == Ok(t)
  {
  }

  const YesTokens: seq<string> := ["yes", "y", "true"]
  const NoTokens: seq<string> := ["no", "n", "false"]

  /** The `bool` branch of `check_value`. `str(v).lower()` is compared
      with ASCII words only, and no non-ASCII character lowers into an
      ASCII letter of them, so lowering ASCII letters decides the same. */
  function ToBool(value: Value, host: Host): (r: Result<Value>)
    ensures value.Bool? ==> r == Ok(value)
    ensures !value.Bool? ==> (r == Ok(Bool(true)) <==> Lower(StrOf(value, host)) in YesTokens)
    ensures !value.Bool? ==> (r == Ok(Bool(false)) <==> Lower(StrOf(value, host)) in NoTokens)
    ensures r.Err? <==> !value.Bool? && Lower(StrOf(value, host)) !in YesTokens + NoTokens
    ensures r.Err? ==> r.error.kind == TypeError
  {
    if value.Bool? then Ok(value)
    else
      var s := Lower(StrOf(value, host));
      if s in YesTokens then Ok(Bool(true))
      else if s in NoTokens then Ok(Bool(false))
      else Raise(TypeError)
  }

  /** The inner `check_bool` of `check_value` calls `isinstance(bool, v)`
      with its arguments swapped; Python raises TypeError because `v` is
      not a class, for every value a document can hold. */
  function CheckBoolSwapped(v: Value): Result<Value> {
    Raise(TypeError)
  }

  /** A list comprehension `[f(x) for x in items[i:]]`: the first exception
      raised by `f` ends it. */
  function MapEach(f: Value -> Result<Value>, items: seq<Value>, i: nat): (r: Result<seq<Value>>)
    requires i <= |items|
    ensures r.Ok? ==> |r.value| == |items| - i && forall j :: i <= j < |items| ==> f(items[j]) == Ok(r.value[j - i])
    ensures r.Err? ==> exists j ::
      i <= j < |items| && f(items[j]) == Err(r.error) && forall k :: i <= k < j ==> f(items[k]).Ok?
    ensures (forall j :: i <= j < |items| ==> f(items[j]).Ok?) ==> r.Ok?
    decreases |items| - i
  {
    if i == |items| then Ok([])
    else
      var h :- f(items[i]);
      var t :- MapEach(f, items, i + 1);
      Ok([h] + t)
  }

  /** `check_value(value, data_type)` */
  function CheckValue(value: Value, t: ConfigType, host: Host): (r: Result<Value>)
    ensures t == IntType ==> r == ToInt(value)
    ensures t == BoolType ==> r == ToBool(value, host)
    ensures t == StringType ==> r == Ok(Str(StrOf(value, host)))
    // every list type refuses a value that is not a list
    ensures t in {ListType, StringListType, IntListType, FloatListType, BoolListType} && !value.List? ==>
      r == Raise(TypeError)
    ensures t == ListType && value.List? ==> r == Ok(value)
    // `list.string` and `list.int` map item by item, keeping length and order
    ensures t == StringListType && value.List? ==>
      r.Ok? && r.value.List? && |r.value.items| == |value.items| &&
      forall j :: 0 <= j < |value.items| ==> r.value.items[j] == Str(StrOf(value.items[j], host))
    ensures t == IntListType && value.List? && r.Ok? ==>
      r.value.List? && |r.value.items| == |value.items| &&
      forall j :: 0 <= j < |value.items| ==> ToInt(value.items[j]) == Ok(r.value.items[j])
    ensures t == IntListType && value.List? && r.Err? ==>
      exists j :: 0 <= j < |value.items| && ToInt(value.items[j]) == Err(r.error)
    // `list.bool` accepts the empty list only
    ensures t == BoolListType ==> (r.Ok? <==> value == List([])) && (r.Ok? ==> r.value == value)
    ensures t == BoolListType && r.Err? ==> r.error.kind == TypeError
  {
    match t
    case IntType => ToInt(value)
    case FloatType => host.toFloat(value)
    case StringType => Ok(Str(StrOf(value, host)))
    case BoolType => ToBool(value, host)
    case ListType => if value.List? then Ok(value) else Raise(TypeError)
    case StringListType =>
      if !value.List? then Raise(TypeError)
      else Ok(List(seq(|value.items|, j requires 0 <= j < |value.items| => Str(StrOf(value.items[j], host)))))
    case BoolListType =>
      if !value.List? then Raise(TypeError)
      else
        var bs :- MapEach(CheckBoolSwapped, value.items, 0);
        Ok(List(bs))
    case IntListType =>
      if !value.List? then Raise(TypeError)
      else
        var ns :- MapEach(ToInt, value.items, 0);
        Ok(List(ns))
    case FloatListType =>
      if !value.List? then Raise(TypeError)
      else
        var fs :- MapEach(host.toFloat, value.items, 0);
        Ok(List(fs))
  }

  /** Text written by `str()` reads back as the same int, bool or str. */
  lemma CheckValueReadsBack(v: Value, host: Host)
    ensures v.Int? ==> CheckValue(Str(StrOf(v, host)), IntType, host) == Ok(v)
    ensures v.Bool? ==> CheckValue(Str(StrOf(v, host)), BoolType, host) == Ok(v)
    ensures v.Str? ==> CheckValue(v, StringType, host) == Ok(v)
  {
    if v.Int? {
      ParseIntToString(v.i);
    }
    if v.Bool? {
      assert Lower("True") == "true" && Lower("False") == "false";
    }
  }

  /** Coercing twice is coercing once, for the types whose result is a
      valid input of the same type. */
  lemma CheckValueIdempotent(v: Value, t: ConfigType, host: Host)
    requires t in {IntType, StringType, BoolType, ListType, StringListType, IntListType, BoolListType}
    requires CheckValue(v, t, host).Ok?
    ensures CheckValue(CheckValue(v, t, host).value, t, host) == CheckValue(v, t, host)
  {
    var r := CheckValue(v, t, host).value;
    if t == IntListType {
      var rs := MapEach(ToInt, r.items, 0);
      assert forall j :: 0 <= j < |r.items| ==> ToInt(r.items[j]) == Ok(r.items[j]);
      assert rs.Ok?;
      assert rs.value == r.items;
    } else if t == StringListType {
      var s := CheckValue(r, t, host).value;
      assert forall j :: 0 <= j < |r.items| ==> StrOf(r.items[j], host) == r.items[j].s;
      assert s.items == r.items;
    }
  }

  /** `ConfigVariable(name=name, **args)`: binding the keyword arguments
      fails with TypeError for a non-mapping, a second `name`, a `self` or
      a missing `type`; then the type string is looked up and `meta_data`
      is handed to the mapper without a resolver. */
  function NewConfigVariable(name: string, args: Value, host: Host): (r: Result<ConfigVariable>)
    ensures !args.Dict? ==> r == Raise(TypeError)
    ensures args.Dict? && "type" !in Keys(args.entries) ==> r == Raise(TypeError)
    ensures args.Dict? && ("name" in Keys(args.entries) || "self" in Keys(args.entries)) ==> r == Raise(TypeError)
    ensures args.Dict? && "meta_data" !in Keys(args.entries) ==> r.Err?
    ensures r.Ok? ==> r.value.name == name && args.Dict? && "type" in Keys(args.entries)
    ensures r.Ok? ==> ParseConfigType(GetOr(args.entries, "type", Null)) == Ok(r.value.dataType)
    ensures r.Ok? && "required" !in Keys(args.entries) ==> r.value.required == Bool(false)
    ensures r.Ok? && "default_none_okay" !in Keys(args.entries) ==> r.value.defaultNoneOkay == Bool(false)
    ensures r.Ok? && "default" !in Keys(args.entries) ==> r.value.defaultValue == Null
  {
    if !args.Dict? then Raise(TypeError)
    else
      var e := args.entries;
      if "name" in Keys(e) || "self" in Keys(e) || "type" !in Keys(e) then Raise(TypeError)
      else
        var t :- ParseConfigType(GetOr(e, "type", Null));
        var meta :- Json2Obj.Objectify(GetOr(e, "meta_data", Null), Json2Obj.NoResolver, host);
        Ok(ConfigVariable(
          name, t,
          GetOr(e, "description", Null),
          GetOr(e, "default", Null),
          GetOr(e, "default_none_okay", Bool(false)),
          GetOr(e, "required", Bool(false)),
          GetOr(e, "example", Null),
          meta))
  }

  /** A `meta_data` that is not a dict (absent, None, a number, a list) is
      refused by the mapper; a variable that is built stores the supplied
      keyword arguments, or the signature's defaults for the missing ones,
      and the mapper's attributes of `meta_data`. */
  lemma NewConfigVariableStores(name: string, args: Value, host: Host)
    ensures args.Dict? && !GetOr(args.entries, "meta_data", Null).Dict? ==> NewConfigVariable(name, args, host).Err?
    ensures var r := NewConfigVariable(name, args, host);
      r.Ok? ==>
        r.value.description == GetOr(args.entries, "description", Null) &&
        r.value.defaultValue == GetOr(args.entries, "default", Null) &&
        r.value.defaultNoneOkay == GetOr(args.entries, "default_none_okay", Bool(false)) &&
        r.value.required == GetOr(args.entries, "required", Bool(false)) &&
        r.value.example == GetOr(args.entries, "example", Null) &&
        Json2Obj.Objectify(GetOr(args.entries, "meta_data", Null), Json2Obj.NoResolver, host) == Ok(r.value.metaData)
  {
  }

  /** `d.update({k: v})` when `c` holds. */
  function SetWhen(d: Entries, c: bool, k: string, v: Value): (r: Entries)
    ensures Get(r, k) == if c then Some(v) else Get(d, k)
    ensures forall j :: j != k ==> Get(r, j) == Get(d, j)
  {
    if c then Set(d, k, v) else d
  }

  const ToDictKeys: seq<string> :=
    ["name", "type", "required", "default", "default_none_okay", "description", "example"]

  /** `ConfigVariable.to_dict`, first statements: `name` and `type`, then
      `required` when truthy. */
  function ToDictHead(cv: ConfigVariable): Entries {
    SetWhen([("name", Str(cv.name)), ("type", Str(TypeName(cv.dataType)))], Truthy(cv.required), "required", cv.required)
  }

  /** Next, `default` and `default_none_okay` when the latter is truthy. */
  function ToDictNoneOkay(cv: ConfigVariable): Entries {
    var dno := Truthy(cv.defaultNoneOkay);
    SetWhen(SetWhen(ToDictHead(cv), dno, "default", cv.defaultValue), dno, "default_none_okay", cv.defaultNoneOkay)
  }

  /** `ConfigVariable.to_dict`: last, the loop over `description`,
      `default` and `example`, each written when it is not None. */
  function VariableToDict(cv: ConfigVariable): Entries {
    var d := ToDictNoneOkay(cv);
    var d1 := SetWhen(d, cv.description != Null, "description", cv.description);
    var d2 := SetWhen(d1, cv.defaultValue != Null, "default", cv.defaultValue);
    SetWhen(d2, cv.example != Null, "example", cv.example)
  }

  lemma ToDictHeadContents(cv: ConfigVariable)
    ensures Get(ToDictHead(cv), "name") == Some(Str(cv.name))
    ensures Get(ToDictHead(cv), "type") == Some(Str(TypeName(cv.dataType)))
    ensures Get(ToDictHead(cv), "required") == if Truthy(cv.required) then Some(cv.required) else None
  {
    var d0 := [("name", Str(cv.name)), ("type", Str(TypeName(cv.dataType)))];
    assert Get(d0, "name") == Some(Str(cv.name));
    assert Get(d0, "type") == Some(Str(TypeName(cv.dataType)));
  }

  lemma ToDictHeadAbsent(cv: ConfigVariable)
    ensures forall k :: k !in ["name", "type", "required"] ==> Get(ToDictHead(cv), k) == None
  {
  }

  lemma ToDictNoneOkayKept(cv: ConfigVariable)
    ensures Get(ToDictNoneOkay(cv), "name") == Some(Str(cv.name))
    ensures Get(ToDictNoneOkay(cv), "type") == Some(Str(TypeName(cv.dataType)))
    ensures Get(ToDictNoneOkay(cv), "required") == if Truthy(cv.required) then Some(cv.required) else None
  {
    ToDictHeadContents(cv);
  }

  lemma ToDictNoneOkayAdded(cv: ConfigVariable)
    ensures Get(ToDictNoneOkay(cv), "default_none_okay") ==
      if Truthy(cv.defaultNoneOkay) then Some(cv.defaultNoneOkay) else None
    ensures Get(ToDictNoneOkay(cv), "default") == if Truthy(cv.defaultNoneOkay) then Some(cv.defaultValue) else None
  {
    ToDictHeadAbsent(cv);
    assert "default" !in ["name", "type", "required"] && "default_none_okay" !in ["name", "type", "required"];
  }

  lemma ToDictNoneOkayAbsent(cv: ConfigVariable)
    ensures forall k :: k !in ["name", "type", "required", "default", "default_none_okay"] ==>
      Get(ToDictNoneOkay(cv), k) == None
  {
    ToDictHeadAbsent(cv);
  }

  /** `to_dict` always emits `name`, the type string, `required` when it is
      truthy, and `default_none_okay` when it is truthy. */
  lemma VariableToDictFixed(cv: ConfigVariable)
    ensures Get(VariableToDict(cv), "name") == Some(Str(cv.name))
    ensures Get(VariableToDict(cv), "type") == Some(Str(TypeName(cv.dataType)))
    ensures Get(VariableToDict(cv), "required") == if Truthy(cv.required) then Some(cv.required) else None
    ensures Get(VariableToDict(cv), "default_none_okay") ==
      if Truthy(cv.defaultNoneOkay) then Some(cv.defaultNoneOkay) else None
  {
    ToDictNoneOkayKept(cv);
    ToDictNoneOkayAdded(cv);
    ToDictLoopFrame(cv, "name");
    ToDictLoopFrame(cv, "type");
    ToDictLoopFrame(cv, "required");
    ToDictLoopFrame(cv, "default_none_okay");
  }

  /** The closing loop of `to_dict` writes only its three keys. */
  lemma ToDictLoopFrame(cv: ConfigVariable, k: string)
    requires k != "description" && k != "default" && k != "example"
    ensures Get(VariableToDict(cv), k) == Get(ToDictNoneOkay(cv), k)
  {
  }

  /** `description` and `example` are emitted only when not None. */
  lemma VariableToDictOptional(cv: ConfigVariable)
    ensures Get(VariableToDict(cv), "description") == if cv.description != Null then Some(cv.description) else None
    ensures Get(VariableToDict(cv), "example") == if cv.example != Null then Some(cv.example) else None
  {
    ToDictNoneOkayAbsent(cv);
    assert "description" !in ["name", "type", "required", "default", "default_none_okay"];
    assert "example" !in ["name", "type", "required", "default", "default_none_okay"];
  }

  /** `default` is emitted when it is not None or when `default_none_okay`
      is truthy. */
  lemma VariableToDictDefault(cv: ConfigVariable)
    ensures Get(VariableToDict(cv), "default") ==
      if cv.defaultValue != Null || Truthy(cv.defaultNoneOkay) then Some(cv.defaultValue) else None
  {
    ToDictNoneOkayAdded(cv);
  }

  /** No other key is emitted. */
  lemma VariableToDictKeys(cv: ConfigVariable)
    ensures forall k :: k !in ToDictKeys ==> Get(VariableToDict(cv), k) == None
  {
    ToDictNoneOkayAbsent(cv);
  }

  /** A field of a custom template section. */
  datatype TemplateField = TemplateField(name: string, default: Value, required: Value)

  /** A template section: a "custom" one has a field map, a "variable" one
      has none. */
  datatype TemplateSection =
    | CustomSection(name: string, fields: seq<(string, TemplateField)>)
    | VariableSection(name: string)

  /** `ConfigTemplate.sections`, in the order of the template document. */
  datatype ConfigTemplate = ConfigTemplate(sections: seq<(string, TemplateSection)>)

  /** Binding `Ctor(name=name, **args)` for a constructor with parameters
      `self` and `name` and a `**kwargs` catch-all. */
  predicate BindsAsKeywords(args: Value) {
    args.Dict? && "name" !in Keys(args.entries) && "self" !in Keys(args.entries)
  }

  /** `ConfigTemplateField(name=name, **args)`: `default` defaults to None
      and `required` to False; other keys are swallowed. */
  function ParseField(name: string, args: Value): (r: Result<TemplateField>)
    ensures r.Ok? <==> BindsAsKeywords(args)
    ensures r.Err? ==> r.error.kind == TypeError
    ensures r.Ok? ==> r.value.name == name
    ensures r.Ok? && "default" !in Keys(args.entries) ==> r.value.default == Null
    ensures r.Ok? && "required" !in Keys(args.entries) ==> r.value.required == Bool(false)
    ensures r.Ok? && "default" in Keys(args.entries) ==> Get(args.entries, "default") == Some(r.value.default)
    ensures r.Ok? && "required" in Keys(args.entries) ==> Get(args.entries, "required") == Some(r.value.required)
  {
    if !BindsAsKeywords(args) then Raise(TypeError)
    else Ok(TemplateField(name, GetOr(args.entries, "default", Null), GetOr(args.entries, "required", Bool(false))))
  }

  /** `for k, v in e.items(): out[k] = parse(k, v)`, from the `i`-th item
      on; the first failing `parse` ends the loop. */
  function ParseEach<V>(parse: (string, Value) -> Result<V>, e: Entries, i: nat, acc: seq<(string, V)>)
    : (r: Result<seq<(string, V)>>)
    requires i <= |e|
    ensures r.Ok? <==> forall j :: i <= j < |e| ==> parse(e[j].0, e[j].1).Ok?
    ensures r.Err? ==> exists j :: i <= j < |e| && parse(e[j].0, e[j].1) == Err(r.error)
    ensures r.Ok? && Distinct(acc) ==> Distinct(r.value)
    decreases |e| - i
  {
    if i == |e| then Ok(acc)
    else
      var x :- parse(e[i].0, e[i].1);
      ParseEach(parse, e, i + 1, Set(acc, e[i].0, x))
  }

  predicate AllParse<V>(parse: (string, Value) -> Result<V>, e: Entries) {
    forall j :: 0 <= j < |e| ==> parse(e[j].0, e[j].1).Ok?
  }

  /** The items of `e`, each parsed. */
  function Parsed<V>(parse: (string, Value) -> Result<V>, e: Entries): (p: seq<(string, V)>)
    requires AllParse(parse, e)
    ensures |p| == |e| && forall j :: 0 <= j < |e| ==> p[j] == (e[j].0, parse(e[j].0, e[j].1).value)
  {
    seq(|e|, j requires 0 <= j < |e| && parse(e[j].0, e[j].1).Ok? => (e[j].0, parse(e[j].0, e[j].1).value))
  }

  /** The parsing loop is `acc.update` with the parsed items. */
  lemma {:induction false} ParseEachUpdate<V>(parse: (string, Value) -> Result<V>, e: Entries, i: nat, acc: seq<(string, V)>)
    requires i <= |e| && AllParse(parse, e)
    ensures ParseEach(parse, e, i, acc) == Ok(Update(acc, Parsed(parse, e)[i..]))
    decreases |e| - i
  {
    var p := Parsed(parse, e);
    if i < |e| {
      var x := parse(e[i].0, e[i].1).value;
      assert p[i..][0] == (e[i].0, x);
      assert p[i..][1..] == p[i + 1..];
      ParseEachUpdate(parse, e, i + 1, Set(acc, e[i].0, x));
    }
  }

  /** A dict `e` with distinct keys, parsed from scratch: exactly its keys,
      each holding its own parsed value. */
  lemma ParsedDict<V>(parse: (string, Value) -> Result<V>, e: Entries)
    requires Distinct(e)
    requires ParseEach(parse, e, 0, []).Ok?
    ensures var d := ParseEach(parse, e, 0, []).value;
      Keys(d) == Keys(e) &&
      forall j :: 0 <= j < |e| ==> parse(e[j].0, e[j].1).Ok? && Get(d, e[j].0) == Some(parse(e[j].0, e[j].1).value)
  {
    ParseEachUpdate(parse, e, 0, []);
    var p := Parsed(parse, e);
    assert p[0..] == p;
    var d := Update([], p);
    assert Distinct(p) by {
      forall a, b | 0 <= a < b < |p| ensures p[a].0 != p[b].0 {
        assert p[a].0 == e[a].0 && p[b].0 == e[b].0;
      }
    }
    forall j | 0 <= j < |e| ensures Get(d, e[j].0) == Some(parse(e[j].0, e[j].1).value) {
      GetAt(p, j);
      assert e[j].0 in Keys(p);
    }
    UpdateFromEmpty(p);
    assert Keys(p) == Keys(e);
  }

  /** Updating an empty dict with a dict of distinct keys copies its keys
      in order. */
  lemma {:induction false} UpdateFromEmpty<V>(p: seq<(string, V)>)
    requires Distinct(p)
    ensures Keys(Update([], p)) == Keys(p)
  {
    UpdateAppends([], p);
  }

  /** Updating with keys that are all new appends them in order. */
  lemma {:induction false} UpdateAppends<V>(d: seq<(string, V)>, p: seq<(string, V)>)
    requires Distinct(p) && forall j :: 0 <= j < |p| ==> p[j].0 !in Keys(d)
    ensures Keys(Update(d, p)) == Keys(d) + Keys(p)
    decreases |p|
  {
    if p != [] {
      var d1 := Set(d, p[0].0, p[0].1);
      UpdateAppendsStep(d, p);
      UpdateAppends(d1, p[1..]);
      assert Update(d, p) == Update(d1, p[1..]);
      Json2Obj.AppendAssoc(Keys(d), [p[0].0], Keys(p[1..]));
    }
  }

  lemma UpdateAppendsStep<V>(d: seq<(string, V)>, p: seq<(string, V)>)
    requires p != [] && Distinct(p) && forall j :: 0 <= j < |p| ==> p[j].0 !in Keys(d)
    ensures Keys(Set(d, p[0].0, p[0].1)) == Keys(d) + [p[0].0]
    ensures Distinct(p[1..]) && forall j :: 0 <= j < |p[1..]| ==> p[1..][j].0 !in Keys(Set(d, p[0].0, p[0].1))
    ensures Keys(p) == [p[0].0] + Keys(p[1..])
  {
    assert p == [p[0]] + p[1..];
    KeysCons(p[0], p[1..]);
    DistinctTail(p);
    var d1 := Set(d, p[0].0, p[0].1);
    forall j | 0 <= j < |p[1..]| ensures p[1..][j].0 !in Keys(d1) {
      assert p[1..][j] == p[j + 1];
      assert p[j + 1].0 != p[0].0;
    }
  }

  /** `ConfigTemplateSection(name=name, **args)`: a "custom" section reads
      its field map from `fields` (an empty one when absent), a "variable"
      section has none, and any other type is refused after that. */
  function ParseSection(name: string, args: Value): (r: Result<TemplateSection>)
    ensures !BindsAsKeywords(args) ==> r == Raise(TypeError)
    ensures BindsAsKeywords(args) && "type" !in Keys(args.entries) ==> r == Raise(TypeError)
    ensures args.Dict? && GetOr(args.entries, "type", Null) !in {Str("custom"), Str("variable")} ==>
      r == Raise(TypeError)
    ensures BindsAsKeywords(args) && GetOr(args.entries, "type", Null) == Str("variable") ==>
      r == Ok(VariableSection(name))
    ensures (BindsAsKeywords(args) && GetOr(args.entries, "type", Null) == Str("custom") &&
             "fields" !in Keys(args.entries)) ==> r == Ok(CustomSection(name, []))
    ensures (args.Dict? && GetOr(args.entries, "type", Null) == Str("custom") &&
             "fields" in Keys(args.entries) && !GetOr(args.entries, "fields", Null).Dict?) ==> r.Err?
    ensures r.Ok? ==> r.value.name == name
    ensures r.Ok? ==> (r.value.CustomSection? <==> GetOr(args.entries, "type", Null) == Str("custom"))
  {
    if !BindsAsKeywords(args) || "type" !in Keys(args.entries) then Raise(TypeError)
    else
      var t := GetOr(args.entries, "type", Null);
      if t == Str("custom") then
        match GetOr(args.entries, "fields", Dict([], true))
        case Dict(fe, _) =>
          var fields :- ParseEach(ParseField, fe, 0, []);
          Ok(CustomSection(name, fields))
        case _ => Raise(AttributeError)
      else if t == Str("variable") then Ok(VariableSection(name))
      else Raise(TypeError)
  }

  /** A custom section holds one field per item of `fields`, named by its
      key, with `default=None, required=False` unless given. */
  lemma CustomSectionFields(name: string, args: Value)
    requires ParseSection(name, args).Ok? && ParseSection(name, args).value.CustomSection?
    requires "fields" in Keys(args.entries) && GetOr(args.entries, "fields", Null).Dict?
    requires Distinct(GetOr(args.entries, "fields", Null).entries)
    ensures var fe := GetOr(args.entries, "fields", Null).entries;
      var fields := ParseSection(name, args).value.fields;
      Keys(fields) == Keys(fe) &&
      forall j :: 0 <= j < |fe| ==>
        ParseField(fe[j].0, fe[j].1).Ok? && Get(fields, fe[j].0) == Some(ParseField(fe[j].0, fe[j].1).value)
  {
    var fe := GetOr(args.entries, "fields", Null).entries;
    assert GetOr(args.entries, "fields", Dict([], true)) == GetOr(args.entries, "fields", Null);
    ParsedDict(ParseField, fe);
  }

  /** `ConfigTemplate(config=config)`: one section per key, in order. */
  function ParseTemplate(config: Entries): (r: Result<ConfigTemplate>)
    ensures r.Ok? <==> forall j :: 0 <= j < |config| ==> ParseSection(config[j].0, config[j].1).Ok?
    ensures r.Ok? ==> Distinct(r.value.sections)
  {
    var sections :- ParseEach(ParseSection, config, 0, []);
    Ok(ConfigTemplate(sections))
  }

  /** The `ConfigTemplateSection` constructor: its fields loop. */
  method BuildSection(name: string, args: Value) returns (r: Result<TemplateSection>)
    ensures r == ParseSection(name, args)
  {
    if !BindsAsKeywords(args) || "type" !in Keys(args.entries) {
      return Raise(TypeError);
    }
    var t := GetOr(args.entries, "type", Null);
    var fields: seq<(string, TemplateField)> := [];
    if t == Str("custom") {
      var given := GetOr(args.entries, "fields", Dict([], true));
      if !given.Dict? {
        return Raise(AttributeError);
      }
      var fe := given.entries;
      for i := 0 to |fe|
        invariant ParseEach(ParseField, fe, i, fields) == ParseEach(ParseField, fe, 0, [])
      {
        var field := ParseField(fe[i].0, fe[i].1);
        if field.Err? {
          return Err(field.error);
        }
        fields := Set(fields, fe[i].0, field.value);
      }
    }
    if t != Str("custom") && t != Str("variable") {
      return Raise(TypeError);
    }
    r := Ok(if t == Str("custom") then CustomSection(name, fields) else VariableSection(name));
  }

  /** The `ConfigTemplate` constructor: its sections loop. */
  method BuildTemplate(config: Entries) returns (r: Result<ConfigTemplate>)
    ensures r == ParseTemplate(config)
  {
    var sections: seq<(string, TemplateSection)> := [];
    for i := 0 to |config|
      invariant ParseEach(ParseSection, config, i, sections) == ParseEach(ParseSection, config, 0, [])
    {
      var section := BuildSection(config[i].0, config[i].1);
      if section.Err? {
        return Err(section.error);
      }
      sections := Set(sections, config[i].0, section.value);
    }
    r := Ok(ConfigTemplate(sections));
  }

  /** `d[k][sub] = v`: `d[k]` must exist and be a dict. */
  function SetItem(d: Entries, k: string, sub: string, v: Value): Result<Entries> {
    var g: Option<Value> := Get(d, k);
    match g
    case None => Err(Error(KeyError, [k]))
    case Some(Dict(inner, x)) => Ok(Set(d, k, Dict(Set(inner, sub, v), x)))
    case Some(_) => Raise(TypeError)
  }

  /** One pass of the inner loop of `DefaultConfigFile.__init__` for the
      variable section `section`: the section dict is created on demand,
      then the entry `k: raw` becomes a `ConfigVariable` named `k`. */
  function AddVariable(section: string, k: string, raw: Value, host: Host, acc: Entries): Result<Entries> {
    var acc1 := if !Truthy(GetOr(acc, section, Null)) then Set(acc, section, Dict([], true)) else acc;
    var cv :- NewConfigVariable(k, raw, host);
    SetItem(acc1, section, k, Variable(cv))
  }

  /** The inner loop of `DefaultConfigFile.__init__` for the variable
      section `section` with entries `e`, from the `j`-th entry on. */
  function AddVariables(section: string, e: Entries, host: Host, j: nat, acc: Entries): Result<Entries>
    requires j <= |e|
    decreases |e| - j
  {
    if j == |e| then Ok(acc)
    else
      var acc2 :- AddVariable(section, e[j].0, e[j].1, host, acc);
      AddVariables(section, e, host, j + 1, acc2)
  }

  /** `DefaultConfigFile.sections`, built over the template sections from
      the `i`-th on: a custom section takes `defaults.get(name)`, a
      variable section iterates `defaults[name].items()`. */
  function DefaultSections(t: seq<(string, TemplateSection)>, defaults: Entries, host: Host, i: nat, acc: Entries)
    : Result<Entries>
    requires i <= |t|
    decreases |t| - i
  {
    if i == |t| then Ok(acc)
    else
      var name := t[i].0;
      match t[i].1
      case CustomSection(_, _) => DefaultSections(t, defaults, host, i + 1, Set(acc, name, GetOr(defaults, name, Null)))
      case VariableSection(_) =>
        var given: Option<Value> := Get(defaults, name);
        match given
        case None => Err(Error(KeyError, [name]))
        case Some(Dict(e, _)) =>
          var acc1 :- AddVariables(name, e, host, 0, acc);
          DefaultSections(t, defaults, host, i + 1, acc1)
        case Some(_) => Raise(AttributeError)
  }

  /** `v` is the `ConfigVariable` built from an entry of `e` keyed `k`. */
  predicate IsVariableOf(v: Value, k: string, e: Entries, host: Host) {
    v.Variable? && v.cv.name == k &&
    exists j :: 0 <= j < |e| && e[j].0 == k && NewConfigVariable(k, e[j].1, host) == Ok(v.cv)
  }

  /** Every value of `vs` is the variable built from the entry of `e` with
      its key. */
  predicate BuiltFrom(vs: Entries, e: Entries, host: Host) {
    forall k :: k in Keys(vs) ==> Get(vs, k).Some? && IsVariableOf(Get(vs, k).value, k, e, host)
  }

  /** `d[section]` is a non-empty dict of variables built from `e`, holding
      the keys of its first `j` entries. */
  predicate SectionOf(d: Entries, section: string, e: Entries, j: nat, host: Host)
    requires j <= |e|
  {
    var g := Get(d, section);
    g.Some? && g.value.Dict? && g.value.exact && g.value.entries != [] &&
    BuiltFrom(g.value.entries, e, host) &&
    forall jj :: 0 <= jj < j ==> e[jj].0 in Keys(g.value.entries)
  }

  /** What `DefaultConfigFile.sections` holds for the template section
      `sec` named `name`. */
  predicate SectionBuilt(s: Entries, name: string, sec: TemplateSection, defaults: Entries, host: Host) {
    match sec
    case CustomSection(_, _) => Get(s, name) == Some(GetOr(defaults, name, Null))
    case VariableSection(_) =>
      var given := Get(defaults, name);
      given.Some? && given.value.Dict? &&
      (given.value.entries == [] ==> Get(s, name) == None) &&
      (given.value.entries != [] ==> SectionOf(s, name, given.value.entries, |given.value.entries|, host))
  }

  lemma AddVariablesShape(section: string, e: Entries, host: Host, j: nat, acc: Entries)
    requires j <= |e| && AddVariables(section, e, host, j, acc).Ok?
    requires j == 0 ==> Get(acc, section) == None
    requires j > 0 ==> SectionOf(acc, section, e, j, host)
    ensures var s := AddVariables(section, e, host, j, acc).value;
      (forall k :: k != section ==> Get(s, k) == Get(acc, k)) &&
      (forall k :: k in Keys(s) ==> k in Keys(acc) || k == section) &&
      (e == [] ==> s == acc) &&
      (e != [] ==> SectionOf(s, section, e, |e|, host))
  {
    AddVariablesKeep(section, e, host, j, acc);
    AddVariablesKeys(section, e, host, j, acc);
    AddVariablesSection(section, e, host, j, acc, AddVariables(section, e, host, j, acc).value);
    if e == [] {
      assert AddVariables(section, e, host, j, acc) == Ok(acc);
    }
  }

  /** One pass writes no section but its own and adds no key but the
      section's. */
  lemma AddVariableFrame(section: string, k: string, raw: Value, host: Host, acc: Entries)
    requires AddVariable(section, k, raw, host, acc).Ok?
    ensures forall x :: x != section ==> Get(AddVariable(section, k, raw, host, acc).value, x) == Get(acc, x)
    ensures forall x :: x in Keys(AddVariable(section, k, raw, host, acc).value) ==> x in Keys(acc) || x == section
  {
    var acc1 := if !Truthy(GetOr(acc, section, Null)) then Set(acc, section, Dict([], true)) else acc;
    var cv := NewConfigVariable(k, raw, host).value;
    SetItemFrame(acc1, section, k, Variable(cv));
    forall x | x in Keys(acc1) ensures x in Keys(acc) || x == section {
      SetKeysIn(acc, section, Dict([], true), x);
    }
  }

  /** The inner loop writes no section but its own. */
  lemma {:induction false} AddVariablesKeep(section: string, e: Entries, host: Host, j: nat, acc: Entries)
    requires j <= |e| && AddVariables(section, e, host, j, acc).Ok?
    ensures forall k :: k != section ==> Get(AddVariables(section, e, host, j, acc).value, k) == Get(acc, k)
    decreases |e| - j
  {
    if j < |e| {
      var acc2 := AddVariable(section, e[j].0, e[j].1, host, acc).value;
      AddVariableFrame(section, e[j].0, e[j].1, host, acc);
      AddVariablesKeep(section, e, host, j + 1, acc2);
    }
  }

  /** The inner loop adds no key but the section's. */
  lemma {:induction false} AddVariablesKeys(section: string, e: Entries, host: Host, j: nat, acc: Entries)
    requires j <= |e| && AddVariables(section, e, host, j, acc).Ok?
    ensures forall k :: k in Keys(AddVariables(section, e, host, j, acc).value) ==> k in Keys(acc) || k == section
    decreases |e| - j
  {
    if j < |e| {
      var acc2 := AddVariable(section, e[j].0, e[j].1, host, acc).value;
      AddVariableFrame(section, e[j].0, e[j].1, host, acc);
      AddVariablesKeys(section, e, host, j + 1, acc2);
    }
  }

  /** `d[k][sub] = v` on a dict value `d[k]`. */
  lemma SetItemOfDict(d: Entries, k: string, sub: string, v: Value, inner: Entries, x: bool)
    requires Get(d, k) == Some(Dict(inner, x))
    ensures SetItem(d, k, sub, v) == Ok(Set(d, k, Dict(Set(inner, sub, v), x)))
  {
  }

  /** `d[k][sub] = v` changes only `d[k]` and adds no key. */
  lemma SetItemFrame(d: Entries, k: string, sub: string, v: Value)
    requires SetItem(d, k, sub, v).Ok?
    ensures forall j :: j != k ==> Get(SetItem(d, k, sub, v).value, j) == Get(d, j)
    ensures forall j :: j in Keys(SetItem(d, k, sub, v).value) ==> j in Keys(d)
  {
  }

  /** Before the `j`-th pass the section is absent when `j` is 0, and
      otherwise holds the variables of the first `j` entries. */
  predicate SectionSoFar(acc: Entries, section: string, e: Entries, j: nat, host: Host)
    requires j <= |e|
  {
    if j == 0 then Get(acc, section) == None else SectionOf(acc, section, e, j, host)
  }

  /** After the inner loop, the section holds a variable for every entry. */
  lemma {:induction false} AddVariablesSection(section: string, e: Entries, host: Host, j: nat, acc: Entries, r: Entries)
    requires j <= |e| && AddVariables(section, e, host, j, acc) == Ok(r)
    requires SectionSoFar(acc, section, e, j, host)
    ensures SectionSoFar(r, section, e, |e|, host)
    decreases |e| - j, 1
  {
    if j < |e| {
      var acc2 := AddVariablesNext(section, e, host, j, acc, r);
      AddVariablesRest(section, e, host, j, acc2, r);
    } else {
      assert AddVariables(section, e, host, j, acc) == Ok(acc);
    }
  }

  /** The loop from the state after the `j`-th pass on. */
  lemma {:induction false} AddVariablesRest(section: string, e: Entries, host: Host, j: nat, acc2: Entries, r: Entries)
    requires j < |e| && AddVariables(section, e, host, j + 1, acc2) == Ok(r)
    requires SectionSoFar(acc2, section, e, j + 1, host)
    ensures SectionSoFar(r, section, e, |e|, host)
    decreases |e| - j, 0
  {
    AddVariablesSection(section, e, host, j + 1, acc2, r);
  }

  /** The state after the `j`-th pass, from which the loop goes on. */
  lemma AddVariablesNext(section: string, e: Entries, host: Host, j: nat, acc: Entries, r: Entries) returns (acc2: Entries)
    requires j < |e| && AddVariables(section, e, host, j, acc) == Ok(r)
    requires SectionSoFar(acc, section, e, j, host)
    ensures AddVariables(section, e, host, j + 1, acc2) == Ok(r) && SectionSoFar(acc2, section, e, j + 1, host)
  {
    acc2 := AddVariable(section, e[j].0, e[j].1, host, acc).value;
    AddVariableSection(section, e, host, j, acc);
    assert AddVariables(section, e, host, j, acc) == AddVariables(section, e, host, j + 1, acc2);
  }

  /** One pass adds the `j`-th entry's variable to the section. */
  lemma AddVariableSection(section: string, e: Entries, host: Host, j: nat, acc: Entries)
    requires j < |e| && AddVariable(section, e[j].0, e[j].1, host, acc).Ok?
    requires SectionSoFar(acc, section, e, j, host)
    ensures SectionSoFar(AddVariable(section, e[j].0, e[j].1, host, acc).value, section, e, j + 1, host)
  {
    var acc1 := if !Truthy(GetOr(acc, section, Null)) then Set(acc, section, Dict([], true)) else acc;
    var cv := NewConfigVariable(e[j].0, e[j].1, host).value;
    var inner := Get(acc1, section).value;
    assert inner.Dict? && inner.exact;
    assert j > 0 ==> inner == Get(acc, section).value;
    assert j == 0 ==> inner.entries == [];
    var vs' := Set(inner.entries, e[j].0, Variable(cv));
    assert Get(acc1, section) == Some(Dict(inner.entries, true));
    assert AddVariable(section, e[j].0, e[j].1, host, acc) == SetItem(acc1, section, e[j].0, Variable(cv));
    SetItemOfDict(acc1, section, e[j].0, Variable(cv), inner.entries, true);
    VariablesBuilt(inner.entries, e, host, j, cv);
    SetKeysGrow(inner.entries, e[j].0, Variable(cv));
    VariablesCover(inner.entries, vs', e, j);
  }

  /** Storing the `j`-th entry's variable keeps every value a variable
      built from its entry. */
  lemma VariablesBuilt(vs: Entries, e: Entries, host: Host, j: nat, cv: ConfigVariable)
    requires j < |e| && NewConfigVariable(e[j].0, e[j].1, host) == Ok(cv)
    requires BuiltFrom(vs, e, host)
    ensures BuiltFrom(Set(vs, e[j].0, Variable(cv)), e, host)
  {
    var k := e[j].0;
    var vs' := Set(vs, k, Variable(cv));
    assert IsVariableOf(Variable(cv), k, e, host) by {
      assert e[j].0 == k && NewConfigVariable(k, e[j].1, host) == Ok(cv);
    }
    forall k' | k' in Keys(vs')
      ensures Get(vs', k').Some? && IsVariableOf(Get(vs', k').value, k', e, host)
    {
      if k' != k {
        SetKeysIn(vs, k, Variable(cv), k');
      }
    }
  }

  /** A dict holding every key of `vs` and the `j`-th entry's key holds
      the keys of the first `j + 1` entries. */
  lemma VariablesCover(vs: Entries, r: Entries, e: Entries, j: nat)
    requires j < |e|
    requires forall jj :: 0 <= jj < j ==> e[jj].0 in Keys(vs)
    requires e[j].0 in Keys(r)
    requires forall x :: x in Keys(vs) ==> x in Keys(r)
    ensures r != []
    ensures forall jj :: 0 <= jj < j + 1 ==> e[jj].0 in Keys(r)
  {
  }

  lemma {:induction false} DefaultSectionsShape(t: seq<(string, TemplateSection)>, defaults: Entries, host: Host,
                                                i: nat, acc: Entries)
    requires i <= |t| && DefaultSections(t, defaults, host, i, acc).Ok?
    requires forall a, b :: i <= a < b < |t| ==> t[a].0 != t[b].0
    requires forall a :: i <= a < |t| ==> t[a].0 !in Keys(acc)
    ensures var s := DefaultSections(t, defaults, host, i, acc).value;
      (forall k :: k in Keys(s) ==> k in Keys(acc) || k in Keys(t[i..])) &&
      (forall k :: k !in Keys(t[i..]) ==> Get(s, k) == Get(acc, k)) &&
      (forall a :: i <= a < |t| ==> SectionBuilt(s, t[a].0, t[a].1, defaults, host))
    decreases |t| - i, 1
  {
    if i < |t| {
      var next := NextSections(t, defaults, host, i, acc);
      DefaultSectionsRest(t, defaults, host, i, acc, next);
    }
  }

  /** The loop from the accumulator after the `i`-th template section on. */
  lemma {:induction false} DefaultSectionsRest(t: seq<(string, TemplateSection)>, defaults: Entries, host: Host,
                                               i: nat, acc: Entries, next: Entries)
    requires i < |t| && DefaultSections(t, defaults, host, i + 1, next).Ok?
    requires forall a, b :: i <= a < b < |t| ==> t[a].0 != t[b].0
    requires SectionBuilt(next, t[i].0, t[i].1, defaults, host)
    requires forall k :: k != t[i].0 ==> Get(next, k) == Get(acc, k)
    requires forall k :: k in Keys(next) ==> k in Keys(acc) || k == t[i].0
    requires forall a :: i < a < |t| ==> t[a].0 !in Keys(next)
    ensures var s := DefaultSections(t, defaults, host, i + 1, next).value;
      (forall k :: k in Keys(s) ==> k in Keys(acc) || k in Keys(t[i..])) &&
      (forall k :: k !in Keys(t[i..]) ==> Get(s, k) == Get(acc, k)) &&
      (forall a :: i <= a < |t| ==> SectionBuilt(s, t[a].0, t[a].1, defaults, host))
    decreases |t| - i, 0
  {
    var name := t[i].0;
    assert Keys(t[i..]) == [name] + Keys(t[i + 1..]) by {
      assert t[i..] == [t[i]] + t[i + 1..];
      KeysCons(t[i], t[i + 1..]);
    }
    assert name !in Keys(t[i + 1..]) by {
      var u := t[i + 1..];
      forall a | 0 <= a < |u| ensures u[a].0 != name {
        assert u[a] == t[i + 1 + a];
      }
    }
    var s := DefaultSections(t, defaults, host, i + 1, next).value;
    DefaultSectionsShape(t, defaults, host, i + 1, next);
    SectionBuiltKept(next, s, name, t[i].1, defaults, host);
  }

  /** Whether a section was built depends only on that section's value. */
  lemma SectionBuiltKept(s: Entries, s': Entries, name: string, sec: TemplateSection, defaults: Entries, host: Host)
    requires SectionBuilt(s, name, sec, defaults, host)
    requires Get(s', name) == Get(s, name)
    ensures SectionBuilt(s', name, sec, defaults, host)
  {
  }

  /** The accumulator after the `i`-th template section. */
  function NextSections(t: seq<(string, TemplateSection)>, defaults: Entries, host: Host, i: nat, acc: Entries)
    : (next: Entries)
    requires i < |t| && DefaultSections(t, defaults, host, i, acc).Ok?
    requires forall a, b :: i <= a < b < |t| ==> t[a].0 != t[b].0
    requires forall a :: i <= a < |t| ==> t[a].0 !in Keys(acc)
    ensures DefaultSections(t, defaults, host, i + 1, next) == DefaultSections(t, defaults, host, i, acc)
    ensures SectionBuilt(next, t[i].0, t[i].1, defaults, host)
    ensures forall k :: k != t[i].0 ==> Get(next, k) == Get(acc, k)
    ensures forall k :: k in Keys(next) ==> k in Keys(acc) || k == t[i].0
    ensures forall a :: i < a < |t| ==> t[a].0 !in Keys(next)
  {
    var name := t[i].0;
    if t[i].1.CustomSection? then
      Set(acc, name, GetOr(defaults, name, Null))
    else
      var e := Get(defaults, name).value.entries;
      AddVariablesShape(name, e, host, 0, acc);
      AddVariables(name, e, host, 0, acc).value
  }

  /** `DefaultConfigFile` stores each custom section as the defaults
      document gives it (None when absent), turns every entry of a variable
      section into a `ConfigVariable` named by its key, omits a variable
      section with no entries, and has no section the template lacks. */
  lemma DefaultConfigFileShape(template: ConfigTemplate, defaults: Entries, host: Host)
    requires Distinct(template.sections)
    requires DefaultSections(template.sections, defaults, host, 0, []).Ok?
    ensures var s := DefaultSections(template.sections, defaults, host, 0, []).value;
      (forall k :: k in Keys(s) ==> k in Keys(template.sections)) &&
      forall a :: 0 <= a < |template.sections| ==>
        SectionBuilt(s, template.sections[a].0, template.sections[a].1, defaults, host)
  {
    DefaultSectionsShape(template.sections, defaults, host, 0, []);
    assert template.sections[0..] == template.sections;
  }

  /** The parsed defaults document. */
  class DefaultConfigFile {
    var sections: Entries

    constructor ()
      ensures sections == []
    {
      sections := [];
    }

    /** `DefaultConfigFile(defaults, template)` */
    static method New(defaults: Entries, template: ConfigTemplate, host: Host) returns (r: Result<DefaultConfigFile>)
      ensures r.Ok? <==> DefaultSections(template.sections, defaults, host, 0, []).Ok?
      ensures r.Ok? ==> fresh(r.value) && r.value.sections == DefaultSections(template.sections, defaults, host, 0, []).value
      ensures r.Err? ==> r.error == DefaultSections(template.sections, defaults, host, 0, []).error
    {
      var file := new DefaultConfigFile();
      var t := template.sections;
      for i := 0 to |t|
        invariant fresh(file)
        invariant DefaultSections(t, defaults, host, i, file.sections) == DefaultSections(t, defaults, host, 0, [])
      {
        var name := t[i].0;
        if t[i].1.CustomSection? {
          file.sections := Set(file.sections, name, GetOr(defaults, name, Null));
        } else {
          var given := Get(defaults, name);
          if given.None? {
            return Err(Error(KeyError, [name]));
          }
          if !given.value.Dict? {
            return Raise(AttributeError);
          }
          var failure := file.AddSection(name, given.value.entries, host);
          if failure.Some? {
            return Err(failure.value);
          }
        }
      }
      return Ok(file);
    }

    /** The inner loop over one variable section's entries. */
    method AddSection(name: string, e: Entries, host: Host) returns (failure: Option<Error>)
      modifies this
      ensures failure.None? <==> AddVariables(name, e, host, 0, old(sections)).Ok?
      ensures failure.None? ==> sections == AddVariables(name, e, host, 0, old(sections)).value
      ensures failure.Some? ==> failure.value == AddVariables(name, e, host, 0, old(sections)).error
    {
      for j := 0 to |e|
        invariant AddVariables(name, e, host, j, sections) == AddVariables(name, e, host, 0, old(sections))
      {
        if !Truthy(GetOr(sections, name, Null)) {
          sections := Set(sections, name, Dict([], true));
        }
        var cv := NewConfigVariable(e[j].0, e[j].1, host);
        if cv.Err? {
          return Some(cv.error);
        }
        var stored := SetItem(sections, name, e[j].0, Variable(cv.value));
        if stored.Err? {
          return Some(stored.error);
        }
        sections := stored.value;
      }
      return None;
    }

    /** `get_obj`: the sections wrapped by the mapper with the env-var
        resolver. */
    method GetObj(host: Host) returns (r: Result<Json2Obj.JSON2Obj>)
      ensures r.Ok? <==> Json2Obj.Objectify(Dict(sections, true), Json2Obj.CheckEnvVars, host).Ok?
      ensures r.Ok? ==> fresh(r.value)
      ensures r.Ok? ==> r.value.attrs == Json2Obj.Objectify(Dict(sections, true), Json2Obj.CheckEnvVars, host).value
      ensures r.Err? ==> r.error == Json2Obj.Objectify(Dict(sections, true), Json2Obj.CheckEnvVars, host).error
    {
      r := Json2Obj.JSON2Obj.New(Dict(sections, true), Json2Obj.CheckEnvVars, host);
    }
  }
}
