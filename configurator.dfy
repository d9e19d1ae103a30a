/** The validation engine of `Configurator`: it checks a defaults document
    against a parsed template, then reconciles a user document with the
    defaults section by section and variable by variable, filling the user's
    dict in place. */
module Configurator {
  import opened Errors
  import opened Values
  import opened Dicts
  import opened Builtins
  import Json2Obj
  import opened ConfigClass

  // ---------------------------------------------------------------------
  // check_default_config
  // ---------------------------------------------------------------------

  /** The comprehension of `check_default_config`: the fields of a custom
      section, in declaration order, that are absent from the defaults
      section `section` and marked required. The `in` test of a field runs
      before its `required` test and may raise. */
  function MissingFields(fields: seq<(string, TemplateField)>, section: Value, j: nat): (r: Result<seq<string>>)
    requires j <= |fields|
    ensures section.Dict? ==> r.Ok?
    ensures r.Err? ==> r.error.kind == TypeError
    ensures r.Ok? && section.Dict? ==>
      forall jj :: j <= jj < |fields| && fields[jj].0 !in Keys(section.entries) && Truthy(fields[jj].1.required) ==>
        fields[jj].0 in r.value
    ensures r.Ok? ==>
      forall f :: f in r.value ==>
        exists jj :: j <= jj < |fields| && fields[jj].0 == f && Truthy(fields[jj].1.required) &&
          (section.Dict? ==> f !in Keys(section.entries))
    decreases |fields| - j
  {
    if j == |fields| then Ok([])
    else
      var present :- Contains(section, fields[j].0);
      var rest :- MissingFields(fields, section, j + 1);
      Ok(if !present && Truthy(fields[j].1.required) then [fields[j].0] + rest else rest)
  }

  /** A template section that `check_default_config` lets through. */
  predicate SectionPasses(s: (string, TemplateSection), defaults: Entries) {
    s.0 in Keys(defaults) &&
    (s.1.CustomSection? ==> MissingFields(s.1.fields, GetOr(defaults, s.0, Null), 0) == Ok([]))
  }

  /** `check_default_config` from the `i`-th template section on. */
  function CheckDefaults(t: seq<(string, TemplateSection)>, defaults: Entries, i: nat): (r: Result<bool>)
    requires i <= |t|
    ensures r.Ok? ==> r.value
    ensures r.Ok? <==> forall j :: i <= j < |t| ==> SectionPasses(t[j], defaults)
    ensures r.Err? ==> r.error.kind in {KeyError, TypeError}
    decreases |t| - i
  {
    if i == |t| then Ok(true)
    else
      var name := t[i].0;
      if name !in Keys(defaults) then Err(Error(KeyError, [name]))
      else match t[i].1
        case CustomSection(_, fields) =>
          var missing :- MissingFields(fields, GetOr(defaults, name, Null), 0);
          if missing != [] then Err(Error(KeyError, missing)) else CheckDefaults(t, defaults, i + 1)
        case VariableSection(_) => CheckDefaults(t, defaults, i + 1)
  }

  /** `read_default_config`: the check, then the `DefaultConfigFile` sections. */
  function DefaultsRead(template: ConfigTemplate, defaults: Entries, host: Host): Result<Entries> {
    var _ :- CheckDefaults(template.sections, defaults, 0);
    DefaultSections(template.sections, defaults, host, 0, [])
  }

  /** The attributes of `default_config.get_obj()`. */
  function DefaultsObj(template: ConfigTemplate, defaults: Entries, host: Host): Result<Entries> {
    var sections :- DefaultsRead(template, defaults, host);
    Json2Obj.Objectify(Dict(sections, true), Json2Obj.CheckEnvVars, host)
  }

  // ---------------------------------------------------------------------
  // validate_user_config, as functions of the user dict
  // ---------------------------------------------------------------------

  datatype Options = Options(addMissing: bool, ignoreRequired: bool)

  /** The user dict after a stretch of validation, and the exception that
      ended it, if any: the dict keeps every change made before a raise. */
  datatype Step = Step(user: Entries, failure: Option<Error>)

  /** `self.config_template.sections[name]` */
  function SectionKind(template: ConfigTemplate, name: string): (r: Result<TemplateSection>)
    ensures r.Ok? <==> name in Keys(template.sections)
    ensures r.Ok? ==> Get(template.sections, name) == Some(r.value)
    ensures r.Err? ==> r.error == Error(KeyError, [name])
  {
    var g: Option<TemplateSection> := Get(template.sections, name);
    match g
    case Some(s) => Ok(s)
    case None => Err(Error(KeyError, [name]))
  }

  predicate IsVariableSection(template: ConfigTemplate, name: string) {
    var g: Option<TemplateSection> := Get(template.sections, name);
    g.Some? && g.value.VariableSection?
  }

  /** `JSON2Obj.to_dict(JSON2Obj.get(obj, name))`: only a nested object has
      a `to_dict`; `None` (the default of `get`), a plain value or a method
      of the class raise AttributeError. */
  function VarConfig(attrs: Entries, name: string): (r: Result<Entries>)
    ensures r.Ok? <==> Json2Obj.GetAttr(attrs, name, Null).Found? && Json2Obj.GetAttr(attrs, name, Null).value.Obj?
    ensures r.Err? ==> r.error.kind == AttributeError
  {
    match Json2Obj.GetAttr(attrs, name, Null)
    case Found(Obj(a)) => Ok(Json2Obj.AsDict(a))
    case _ => Raise(AttributeError)
  }

  /** `any(val.required is True for key, val in var_config.items())`,
      evaluated left to right and stopping at the first required one. */
  function AnyRequired(vc: Entries, k: nat): (r: Result<bool>)
    requires k <= |vc|
    ensures r == Ok(true) ==> exists j :: k <= j < |vc| && vc[j].1.Variable? && IsTrue(vc[j].1.cv.required)
    ensures r == Ok(false) ==> forall j :: k <= j < |vc| ==> vc[j].1.Variable? && !IsTrue(vc[j].1.cv.required)
    ensures (forall j :: k <= j < |vc| ==> vc[j].1.Variable?) ==> r.Ok?
    ensures r.Err? ==> r.error.kind == AttributeError
    decreases |vc| - k
  {
    if k == |vc| then Ok(false)
    else match vc[k].1
      case Variable(cv) => if IsTrue(cv.required) then Ok(true) else AnyRequired(vc, k + 1)
      case _ => Raise(AttributeError)
  }

  /** The presence check of a section the defaults list (lines 116-131):
      a variable section the user lacks is inserted as an empty dict, unless
      one of its variables is required and required values are not ignored. */
  function Presence(template: ConfigTemplate, attrs: Entries, name: string, user: Entries, opts: Options): (s: Step)
    ensures s.failure.Some? ==> s.user == user
    ensures forall k :: k != name ==> Get(s.user, k) == Get(user, k)
    ensures !IsVariableSection(template, name) ==> s.user == user
    ensures name in Keys(user) ==> s == Step(user, None)
    ensures name !in Keys(user) && name !in Keys(template.sections) ==> s == Step(user, Some(Error(KeyError, [name])))
    ensures name !in Keys(user) && name in Keys(template.sections) && !IsVariableSection(template, name) ==>
      s == Step(user, None)
    ensures s.failure.None? ==> name in Keys(s.user) || !IsVariableSection(template, name)
  {
    if name in Keys(user) then Step(user, None)
    else match SectionKind(template, name)
      case Err(e) => Step(user, Some(e))
      case Ok(CustomSection(_, _)) => Step(user, None)
      case Ok(VariableSection(_)) =>
        match VarConfig(attrs, name)
        case Err(e) => Step(user, Some(e))
        case Ok(vc) =>
          match AnyRequired(vc, 0)
          case Err(e) => Step(user, Some(e))
          case Ok(anyRequired) =>
            if (opts.addMissing && !anyRequired) || opts.ignoreRequired then Step(Set(user, name, Dict([], true)), None)
            else if anyRequired then Step(user, Some(Error(KeyError, [name])))
            else Step(Set(user, name, Dict([], true)), None)
  }

  /** `user_config.get(section, {}).get(sub)`: a nested `JSON2Obj` has only
      the static `get`, which lacks its `key` argument (TypeError); other
      non-dicts have no `get` at all. */
  function LookupUser(user: Entries, section: string, sub: string): (r: Result<Value>)
    ensures GetOr(user, section, Dict([], true)).Dict? ==> r == Ok(GetOr(GetOr(user, section, Dict([], true)).entries, sub, Null))
    ensures r.Err? ==> r.error.kind in {TypeError, AttributeError}
  {
    match GetOr(user, section, Dict([], true))
    case Dict(e, _) => Ok(GetOr(e, sub, Null))
    case Obj(_) => Raise(TypeError)
    case _ => Raise(AttributeError)
  }

  /** How one variable's value is settled (lines 147-162). */
  function Reconcile(cv: ConfigVariable, value: Value, opts: Options, sub: string, host: Host): (r: Result<Value>)
    // add_missing: truthy values are coerced unless default_none_okay is False
    ensures opts.addMissing && Truthy(value) && IsFalse(cv.defaultNoneOkay) ==> r == Ok(value)
    ensures opts.addMissing && Truthy(value) && !IsFalse(cv.defaultNoneOkay) ==>
      (r.Err? <==> CheckValue(value, cv.dataType, host).Err?)
    ensures opts.addMissing && Truthy(value) && !IsFalse(cv.defaultNoneOkay) &&
            CheckValue(value, cv.dataType, host).Ok? && CheckValue(value, cv.dataType, host).value != Null ==>
      r == CheckValue(value, cv.dataType, host)
    // add_missing: falsy values other than None are kept as they are
    ensures opts.addMissing && !Truthy(value) && value != Null ==> r == Ok(value)
    // add_missing: None becomes the default unless default_none_okay is True
    ensures opts.addMissing && value == Null ==> r == Ok(if IsTrue(cv.defaultNoneOkay) then Null else cv.defaultValue)
    // strict: every value is coerced and a coercion error propagates
    ensures !opts.addMissing && CheckValue(value, cv.dataType, host).Err? ==> r == CheckValue(value, cv.dataType, host)
    ensures !opts.addMissing && CheckValue(value, cv.dataType, host).Ok? && Truthy(CheckValue(value, cv.dataType, host).value) ==>
      r == CheckValue(value, cv.dataType, host)
    ensures !opts.addMissing && opts.ignoreRequired && CheckValue(value, cv.dataType, host).Ok? &&
            !Truthy(CheckValue(value, cv.dataType, host).value) ==>
      r == Ok(cv.defaultValue)
    ensures !opts.addMissing && !opts.ignoreRequired && CheckValue(value, cv.dataType, host).Ok? &&
            !Truthy(CheckValue(value, cv.dataType, host).value) ==>
      r == if Truthy(cv.required) && !Truthy(cv.defaultNoneOkay) then Err(Error(ValueError, [sub]))
           else CheckValue(value, cv.dataType, host)
    // strict, required values not ignored: a required variable without default_none_okay ends up truthy
    ensures !opts.addMissing && !opts.ignoreRequired && Truthy(cv.required) && !Truthy(cv.defaultNoneOkay) && r.Ok? ==>
      Truthy(r.value)
  {
    if opts.addMissing then
      var coerced :-
        if Truthy(value) && !IsFalse(cv.defaultNoneOkay) then CheckValue(value, cv.dataType, host) else Ok(value);
      Ok(if coerced == Null && !IsTrue(cv.defaultNoneOkay) then cv.defaultValue else coerced)
    else
      var coerced :- CheckValue(value, cv.dataType, host);
      if Truthy(coerced) then Ok(coerced)
      else if opts.ignoreRequired then Ok(cv.defaultValue)
      else if Truthy(cv.required) && !Truthy(cv.defaultNoneOkay) then Err(Error(ValueError, [sub]))
      else Ok(coerced)
  }

  /** `user_config[section].update({sub: value})` */
  function UpdateSection(user: Entries, section: string, sub: string, value: Value): (r: Result<Entries>)
    ensures r.Ok? <==> Get(user, section).Some? && Get(user, section).value.Dict?
    ensures r.Ok? ==> forall k :: k != section ==> Get(r.value, k) == Get(user, k)
    ensures r.Ok? ==>
      var old_ := Get(user, section).value;
      Get(r.value, section) == Some(Dict(Set(old_.entries, sub, value), old_.exact))
  {
    var g: Option<Value> := Get(user, section);
    match g
    case None => Err(Error(KeyError, [section]))
    case Some(Dict(e, x)) => Ok(Set(user, section, Dict(Set(e, sub, value), x)))
    case Some(_) => Raise(AttributeError)
  }

  /** One pass of the inner loop: read, settle and write back one variable.
      Every error comes before the write. */
  function FillOne(section: string, sub: string, declared: Value, user: Entries, opts: Options, host: Host): (r: Result<Entries>)
    ensures r.Ok? ==> forall k :: k != section ==> Get(r.value, k) == Get(user, k)
    ensures r.Ok? ==>
      declared.Variable? && Get(user, section).Some? && Get(user, section).value.Dict? &&
      var e := Get(user, section).value.entries;
      var settled := Reconcile(declared.cv, GetOr(e, sub, Null), opts, sub, host);
      settled.Ok? && Get(r.value, section) == Some(Dict(Set(e, sub, settled.value), Get(user, section).value.exact))
  {
    match declared
    case Variable(cv) =>
      var value :- LookupUser(user, section, sub);
      var settled :- Reconcile(cv, value, opts, sub, host);
      UpdateSection(user, section, sub, settled)
    case _ => Raise(AttributeError)
  }

  /** The inner loop over the variables `vc` of a section, from the `k`-th on. */
  function FillSection(section: string, vc: Entries, k: nat, user: Entries, opts: Options, host: Host): Step
    requires k <= |vc|
    decreases |vc| - k
  {
    if k == |vc| then Step(user, None)
    else match FillOne(section, vc[k].0, vc[k].1, user, opts, host)
      case Err(e) => Step(user, Some(e))
      case Ok(next) => FillSection(section, vc, k + 1, next, opts, host)
  }

  /** The outer loop over the sections of the defaults object, from the
      `i`-th on. */
  function ValidateSections(template: ConfigTemplate, attrs: Entries, listing: Entries, i: nat,
                            user: Entries, opts: Options, host: Host): Step
    requires i <= |listing|
    decreases |listing| - i
  {
    if i == |listing| then Step(user, None)
    else
      var name := listing[i].0;
      var p := Presence(template, attrs, name, user, opts);
      if p.failure.Some? then p
      else match SectionKind(template, name)
        case Err(e) => Step(p.user, Some(e))
        case Ok(CustomSection(_, _)) => ValidateSections(template, attrs, listing, i + 1, p.user, opts, host)
        case Ok(VariableSection(_)) =>
          match VarConfig(attrs, name)
          case Err(e) => Step(p.user, Some(e))
          case Ok(vc) =>
            var f := FillSection(name, vc, 0, p.user, opts, host);
            if f.failure.Some? then f else ValidateSections(template, attrs, listing, i + 1, f.user, opts, host)
  }

  /** What `validate_user_config` leaves in the caller's dict, and what it
      returns: the attributes of the `JSON2Obj` built from that dict. */
  datatype Outcome = Outcome(user: Entries, result: Result<Entries>)

  function Validate(template: ConfigTemplate, user: Entries, defaults: Entries, opts: Options, host: Host): Outcome {
    match DefaultsObj(template, defaults, host)
    case Err(e) => Outcome(user, Err(e))
    case Ok(attrs) =>
      var st := ValidateSections(template, attrs, Json2Obj.AsDict(attrs), 0, user, opts, host);
      if st.failure.Some? then Outcome(st.user, Err(st.failure.value))
      else Outcome(st.user, Json2Obj.Objectify(Dict(st.user, true), Json2Obj.CheckEnvVars, host))
  }

  // ---------------------------------------------------------------------
  // Properties of the validation
  // ---------------------------------------------------------------------

  /** The first template section missing from the defaults is reported,
      whatever follows it. */
  lemma {:induction false} CheckDefaultsFirstMissing(t: seq<(string, TemplateSection)>, defaults: Entries, i: nat, a: nat)
    requires i <= a < |t|
    requires t[a].0 !in Keys(defaults)
    requires forall j :: i <= j < a ==> SectionPasses(t[j], defaults)
    ensures CheckDefaults(t, defaults, i) == Err(Error(KeyError, [t[a].0]))
    decreases a - i
  {
    if i < a {
      assert SectionPasses(t[i], defaults);
      CheckDefaultsFirstMissing(t, defaults, i + 1, a);
    }
  }

  /** The first custom section with missing required fields raises one
      KeyError naming all of them, in declaration order. */
  lemma {:induction false} CheckDefaultsMissingFields(t: seq<(string, TemplateSection)>, defaults: Entries, i: nat, a: nat,
                                                      m: seq<string>)
    requires i <= a < |t|
    requires forall j :: i <= j < a ==> SectionPasses(t[j], defaults)
    requires t[a].0 in Keys(defaults) && t[a].1.CustomSection?
    requires MissingFields(t[a].1.fields, GetOr(defaults, t[a].0, Null), 0) == Ok(m) && m != []
    ensures CheckDefaults(t, defaults, i) == Err(Error(KeyError, m))
    decreases a - i
  {
    if i < a {
      assert SectionPasses(t[i], defaults);
      CheckDefaultsMissingFields(t, defaults, i + 1, a, m);
    }
  }

  /** Once the defaults pass the check, every required field of a custom
      section is present in the defaults for that section. */
  lemma CheckedCustomFieldsPresent(t: seq<(string, TemplateSection)>, defaults: Entries, j: nat, jj: nat)
    requires CheckDefaults(t, defaults, 0).Ok?
    requires j < |t| && t[j].1.CustomSection? && GetOr(defaults, t[j].0, Null).Dict?
    requires jj < |t[j].1.fields| && Truthy(t[j].1.fields[jj].1.required)
    ensures t[j].1.fields[jj].0 in Keys(GetOr(defaults, t[j].0, Null).entries)
  {
    assert SectionPasses(t[j], defaults);
  }

  /** A variable section the user lacks: KeyError exactly when one of its
      variables has `required is True` and required values are not ignored;
      otherwise an empty dict is inserted for it. */
  lemma PresenceOfVariableSection(template: ConfigTemplate, attrs: Entries, name: string, user: Entries, opts: Options,
                                  vc: Entries)
    requires name !in Keys(user) && IsVariableSection(template, name)
    requires VarConfig(attrs, name) == Ok(vc)
    requires forall j :: 0 <= j < |vc| ==> vc[j].1.Variable?
    ensures var s := Presence(template, attrs, name, user, opts);
      s.failure.Some? <==> !opts.ignoreRequired && exists j :: 0 <= j < |vc| && IsTrue(vc[j].1.cv.required)
    ensures var s := Presence(template, attrs, name, user, opts);
      s.failure.Some? ==> s.failure.value == Error(KeyError, [name])
    ensures var s := Presence(template, attrs, name, user, opts);
      s.failure.None? ==> s.user == Set(user, name, Dict([], true))
  {
    var r := AnyRequired(vc, 0);
    assert r.Ok?;
    if !r.value {
      assert forall j :: 0 <= j < |vc| ==> !IsTrue(vc[j].1.cv.required);
    }
  }

  /** The inner loop writes nothing outside its own section. */
  lemma {:induction false} FillSectionFrame(section: string, vc: Entries, k: nat, user: Entries, opts: Options, host: Host)
    requires k <= |vc|
    ensures forall key :: key != section ==> Get(FillSection(section, vc, k, user, opts, host).user, key) == Get(user, key)
    decreases |vc| - k
  {
    if k < |vc| {
      var step := FillOne(section, vc[k].0, vc[k].1, user, opts, host);
      if step.Ok? {
        FillSectionFrame(section, vc, k + 1, step.value, opts, host);
      }
    }
  }

  /** What the inner loop writes for the `j`-th declared variable, given the
      user's section `e` as it stood before the loop. */
  function Settled(vc: Entries, j: nat, e: Entries, opts: Options, host: Host): Result<Value>
    requires j < |vc|
  {
    match vc[j].1
    case Variable(cv) => Reconcile(cv, GetOr(e, vc[j].0, Null), opts, vc[j].0, host)
    case _ => Raise(AttributeError)
  }

  /** A section the inner loop completes holds the settled value of every
      declared variable, and every other key of the user's section is left
      as it was; the section stays a dict of the same class. */
  lemma {:induction false} FillSectionContents(section: string, vc: Entries, k: nat, user: Entries, opts: Options,
                                              host: Host, e: Entries, x: bool)
    requires k <= |vc| && Distinct(vc)
    requires Get(user, section) == Some(Dict(e, x))
    requires FillSection(section, vc, k, user, opts, host).failure.None?
    ensures var f := FillSection(section, vc, k, user, opts, host).user;
      Get(f, section).Some? && Get(f, section).value.Dict? && Get(f, section).value.exact == x
    ensures var f := FillSection(section, vc, k, user, opts, host).user;
      forall key :: key !in Keys(vc)[k..] ==> Get(Get(f, section).value.entries, key) == Get(e, key)
    ensures var f := FillSection(section, vc, k, user, opts, host).user;
      forall j :: k <= j < |vc| ==>
        Settled(vc, j, e, opts, host).Ok? &&
        Get(Get(f, section).value.entries, vc[j].0) == Some(Settled(vc, j, e, opts, host).value)
    decreases |vc| - k
  {
    if k < |vc| {
      var step := FillOne(section, vc[k].0, vc[k].1, user, opts, host);
      assert step.Ok?;
      var v := FillOneSettled(section, vc, k, user, opts, host, e, x);
      var e1 := Set(e, vc[k].0, v);
      FillSectionContents(section, vc, k + 1, step.value, opts, host, e1, x);
      var f := FillSection(section, vc, k + 1, step.value, opts, host).user;
      FillSectionContentsStep(vc, k, e, e1, v, Get(f, section).value.entries, opts, host);
    }
  }

  /** One pass of the inner loop, in terms of `Settled`. */
  lemma FillOneSettled(section: string, vc: Entries, k: nat, user: Entries, opts: Options, host: Host,
                       e: Entries, x: bool) returns (v: Value)
    requires k < |vc|
    requires Get(user, section) == Some(Dict(e, x))
    requires FillOne(section, vc[k].0, vc[k].1, user, opts, host).Ok?
    ensures Settled(vc, k, e, opts, host) == Ok(v)
    ensures Get(FillOne(section, vc[k].0, vc[k].1, user, opts, host).value, section) == Some(Dict(Set(e, vc[k].0, v), x))
  {
    v := Settled(vc, k, e, opts, host).value;
  }

  /** Writing one variable does not change what is settled for another. */
  lemma SettledOther(vc: Entries, j: nat, e: Entries, sub: string, v: Value, opts: Options, host: Host)
    requires j < |vc| && vc[j].0 != sub
    ensures Settled(vc, j, Set(e, sub, v), opts, host) == Settled(vc, j, e, opts, host)
  {
    assert GetOr(Set(e, sub, v), vc[j].0, Null) == GetOr(e, vc[j].0, Null);
  }

  /** The declared names after the `k`-th, and the `k`-th itself. */
  lemma DeclaredSplit(vc: Entries, k: nat)
    requires k < |vc| && Distinct(vc)
    ensures Keys(vc)[k..] == [vc[k].0] + Keys(vc)[k + 1..]
    ensures vc[k].0 !in Keys(vc)[k + 1..]
  {
    assert Keys(vc)[k..] == [vc[k].0] + Keys(vc)[k + 1..];
    var rest := Keys(vc)[k + 1..];
    forall m | 0 <= m < |rest| ensures rest[m] != vc[k].0 {
      assert rest[m] == vc[k + 1 + m].0;
    }
  }

  lemma FillSectionContentsStep(vc: Entries, k: nat, e: Entries, e1: Entries, v: Value, e2: Entries,
                                opts: Options, host: Host)
    requires k < |vc| && Distinct(vc)
    requires Settled(vc, k, e, opts, host) == Ok(v) && e1 == Set(e, vc[k].0, v)
    requires forall key :: key !in Keys(vc)[k + 1..] ==> Get(e2, key) == Get(e1, key)
    requires forall j :: k + 1 <= j < |vc| ==>
      Settled(vc, j, e1, opts, host).Ok? && Get(e2, vc[j].0) == Some(Settled(vc, j, e1, opts, host).value)
    ensures forall key :: key !in Keys(vc)[k..] ==> Get(e2, key) == Get(e, key)
    ensures forall j :: k <= j < |vc| ==>
      Settled(vc, j, e, opts, host).Ok? && Get(e2, vc[j].0) == Some(Settled(vc, j, e, opts, host).value)
  {
    DeclaredSplit(vc, k);
    FillSectionKept(vc, k, e, e1, v, e2);
    forall j | k <= j < |vc|
      ensures Settled(vc, j, e, opts, host).Ok? && Get(e2, vc[j].0) == Some(Settled(vc, j, e, opts, host).value)
    {
      if j == k {
        assert Get(e2, vc[k].0) == Get(e1, vc[k].0);
      } else {
        assert vc[k].0 != vc[j].0;
        SettledOther(vc, j, e, vc[k].0, v, opts, host);
      }
    }
  }

  lemma FillSectionKept(vc: Entries, k: nat, e: Entries, e1: Entries, v: Value, e2: Entries)
    requires k < |vc|
    requires Keys(vc)[k..] == [vc[k].0] + Keys(vc)[k + 1..]
    requires e1 == Set(e, vc[k].0, v)
    requires forall key :: key !in Keys(vc)[k + 1..] ==> Get(e2, key) == Get(e1, key)
    ensures forall key :: key !in Keys(vc)[k..] ==> Get(e2, key) == Get(e, key)
  {
  }

  /** The outer loop leaves every key that is not a variable section of the
      template (custom sections, sections the template does not know) as the
      user wrote it, or absent if it was absent, even when it stops on an
      exception. */
  lemma {:induction false} ValidateSectionsFrame(template: ConfigTemplate, attrs: Entries, listing: Entries, i: nat,
                                                user: Entries, opts: Options, host: Host, key: string)
    requires i <= |listing|
    requires !IsVariableSection(template, key)
    ensures Get(ValidateSections(template, attrs, listing, i, user, opts, host).user, key) == Get(user, key)
    decreases |listing| - i
  {
    if i < |listing| {
      var name := listing[i].0;
      var p := Presence(template, attrs, name, user, opts);
      assert Get(p.user, key) == Get(user, key);
      if p.failure.None? {
        var kind := SectionKind(template, name);
        if kind.Ok? && kind.value.CustomSection? {
          ValidateSectionsFrame(template, attrs, listing, i + 1, p.user, opts, host, key);
        } else if kind.Ok? {
          var vc := VarConfig(attrs, name);
          if vc.Ok? {
            assert name != key;
            FillSectionFrame(name, vc.value, 0, p.user, opts, host);
            var f := FillSection(name, vc.value, 0, p.user, opts, host);
            if f.failure.None? {
              ValidateSectionsFrame(template, attrs, listing, i + 1, f.user, opts, host, key);
            }
          }
        }
      }
    }
  }

  /** The inner loop never removes a key from the user's dict. */
  lemma {:induction false} FillSectionKeys(section: string, vc: Entries, k: nat, user: Entries, opts: Options, host: Host)
    requires k <= |vc|
    ensures forall key :: key in Keys(user) ==> key in Keys(FillSection(section, vc, k, user, opts, host).user)
    decreases |vc| - k
  {
    if k < |vc| {
      var step := FillOne(section, vc[k].0, vc[k].1, user, opts, host);
      if step.Ok? {
        FillSectionKeys(section, vc, k + 1, step.value, opts, host);
      }
    }
  }

  /** Nor does the outer loop. */
  lemma {:induction false} ValidateSectionsKeys(template: ConfigTemplate, attrs: Entries, listing: Entries, i: nat,
                                               user: Entries, opts: Options, host: Host)
    requires i <= |listing|
    ensures forall key :: key in Keys(user) ==> key in Keys(ValidateSections(template, attrs, listing, i, user, opts, host).user)
    decreases |listing| - i
  {
    if i < |listing| {
      var name := listing[i].0;
      var p := Presence(template, attrs, name, user, opts);
      assert forall key :: key in Keys(user) ==> key in Keys(p.user);
      if p.failure.None? {
        var kind := SectionKind(template, name);
        if kind.Ok? && kind.value.CustomSection? {
          ValidateSectionsKeys(template, attrs, listing, i + 1, p.user, opts, host);
        } else if kind.Ok? {
          var vc := VarConfig(attrs, name);
          if vc.Ok? {
            FillSectionKeys(name, vc.value, 0, p.user, opts, host);
            var f := FillSection(name, vc.value, 0, p.user, opts, host);
            if f.failure.None? {
              ValidateSectionsKeys(template, attrs, listing, i + 1, f.user, opts, host);
            }
          }
        }
      }
    }
  }

  /** After a validation that does not raise, every variable section the
      defaults list is present in the user's dict. */
  lemma {:induction false} ValidateSectionsPresent(template: ConfigTemplate, attrs: Entries, listing: Entries, i: nat,
                                                  user: Entries, opts: Options, host: Host)
    requires i <= |listing|
    requires ValidateSections(template, attrs, listing, i, user, opts, host).failure.None?
    ensures forall j :: i <= j < |listing| && IsVariableSection(template, listing[j].0) ==>
      listing[j].0 in Keys(ValidateSections(template, attrs, listing, i, user, opts, host).user)
    decreases |listing| - i
  {
    if i < |listing| {
      var name := listing[i].0;
      var p := Presence(template, attrs, name, user, opts);
      var kind := SectionKind(template, name);
      var next: Entries;
      if kind.value.CustomSection? {
        next := p.user;
      } else {
        var vc := VarConfig(attrs, name);
        FillSectionKeys(name, vc.value, 0, p.user, opts, host);
        next := FillSection(name, vc.value, 0, p.user, opts, host).user;
      }
      assert IsVariableSection(template, name) ==> name in Keys(next);
      ValidateSectionsPresent(template, attrs, listing, i + 1, next, opts, host);
      ValidateSectionsKeys(template, attrs, listing, i + 1, next, opts, host);
    }
  }

  /** `validate_user_config` never touches a custom section or a section
      outside the template, whether it succeeds or raises. */
  lemma ValidateLeavesOtherSections(template: ConfigTemplate, user: Entries, defaults: Entries, opts: Options,
                                    host: Host, key: string)
    requires !IsVariableSection(template, key)
    ensures Get(Validate(template, user, defaults, opts, host).user, key) == Get(user, key)
  {
    var attrs := DefaultsObj(template, defaults, host);
    if attrs.Ok? {
      ValidateSectionsFrame(template, attrs.value, Json2Obj.AsDict(attrs.value), 0, user, opts, host, key);
    }
  }

  // ---------------------------------------------------------------------
  // The Configurator object
  // ---------------------------------------------------------------------

  /** A `dict` owned by the caller, which validation fills in place. */
  class PyDict {
    var items: Entries

    constructor (e: Entries)
      ensures items == e
    {
      items := e;
    }
  }

  /** The `user_config` argument: a dict, or any value that is neither a
      dict nor a path. */
  datatype UserConfigArg = DictArg(d: PyDict) | NonDictArg

  class Configurator {
    const template: ConfigTemplate

    constructor (t: ConfigTemplate)
      ensures template == t
    {
      template := t;
    }

    /** `Configurator(config_template)` with a dict: the template is parsed
        from it. */
    static method FromDict(config: Entries) returns (r: Result<Configurator>)
      ensures r.Ok? <==> ParseTemplate(config).Ok?
      ensures r.Ok? ==> fresh(r.value) && r.value.template == ParseTemplate(config).value
      ensures r.Err? ==> r.error == ParseTemplate(config).error
    {
      var t := BuildTemplate(config);
      if t.Err? {
        return Err(t.error);
      }
      var c := new Configurator(t.value);
      return Ok(c);
    }

    method CheckDefaultConfig(defaults: Entries) returns (r: Result<bool>)
      ensures r == CheckDefaults(template.sections, defaults, 0)
    {
      var t := template.sections;
      for i := 0 to |t|
        invariant CheckDefaults(t, defaults, i) == CheckDefaults(t, defaults, 0)
      {
        var name := t[i].0;
        if name !in Keys(defaults) {
          return Err(Error(KeyError, [name]));
        }
        if t[i].1.CustomSection? {
          var missing := MissingFields(t[i].1.fields, GetOr(defaults, name, Null), 0);
          if missing.Err? {
            return Err(missing.error);
          }
          if missing.value != [] {
            return Err(Error(KeyError, missing.value));
          }
        }
      }
      return Ok(true);
    }

    method ReadDefaultConfig(defaults: Entries, host: Host) returns (r: Result<DefaultConfigFile>)
      ensures r.Ok? <==> DefaultsRead(template, defaults, host).Ok?
      ensures r.Ok? ==> fresh(r.value) && r.value.sections == DefaultsRead(template, defaults, host).value
      ensures r.Err? ==> r.error == DefaultsRead(template, defaults, host).error
    {
      var checked := CheckDefaultConfig(defaults);
      if checked.Err? {
        return Err(checked.error);
      }
      r := DefaultConfigFile.New(defaults, template, host);
    }

    /** `get_user_config` for an argument that is not a path. */
    static method GetUserConfig(arg: UserConfigArg) returns (r: Result<PyDict>)
      ensures arg.DictArg? ==> r == Ok(arg.d)
      ensures arg.NonDictArg? ==> r == Raise(TypeError)
    {
      match arg
      case DictArg(d) => return Ok(d);
      case NonDictArg => return Raise(TypeError);
    }

    /** Lines 116-131 for one section, on the caller's dict. */
    method EnsureSection(d: PyDict, attrs: Entries, name: string, opts: Options) returns (failure: Option<Error>)
      modifies d
      ensures failure == Presence(template, attrs, name, old(d.items), opts).failure
      ensures d.items == Presence(template, attrs, name, old(d.items), opts).user
    {
      if name in Keys(d.items) {
        return None;
      }
      var kind := SectionKind(template, name);
      if kind.Err? {
        return Some(kind.error);
      }
      if kind.value.CustomSection? {
        return None;
      }
      var vc := VarConfig(attrs, name);
      if vc.Err? {
        return Some(vc.error);
      }
      var anyRequired := AnyRequired(vc.value, 0);
      if anyRequired.Err? {
        return Some(anyRequired.error);
      }
      if (opts.addMissing && !anyRequired.value) || opts.ignoreRequired {
        d.items := Set(d.items, name, Dict([], true));
      } else if anyRequired.value {
        return Some(Error(KeyError, [name]));
      } else {
        d.items := Set(d.items, name, Dict([], true));
      }
      return None;
    }

    /** The inner loop of lines 145-163: `value` is read, settled and
        written back, one variable at a time. */
    method FillVariables(d: PyDict, name: string, vc: Entries, opts: Options, host: Host) returns (failure: Option<Error>)
      modifies d
      ensures failure == FillSection(name, vc, 0, old(d.items), opts, host).failure
      ensures d.items == FillSection(name, vc, 0, old(d.items), opts, host).user
    {
      for k := 0 to |vc|
        invariant FillSection(name, vc, k, d.items, opts, host) == FillSection(name, vc, 0, old(d.items), opts, host)
      {
        var (sub, declared) := vc[k];
        if !declared.Variable? {
          return Some(Error(AttributeError, []));
        }
        var value := LookupUser(d.items, name, sub);
        if value.Err? {
          return Some(value.error);
        }
        var settled := Reconcile(declared.cv, value.value, opts, sub, host);
        if settled.Err? {
          return Some(settled.error);
        }
        var next := UpdateSection(d.items, name, sub, settled.value);
        if next.Err? {
          return Some(next.error);
        }
        d.items := next.value;
      }
      return None;
    }

    /** `validate_user_config(user_config, default_config, add_missing,
        ignore_required)`: the caller's dict is updated in place, and kept
        as it stands when an exception ends the validation. */
    method ValidateUserConfig(arg: UserConfigArg, defaults: Entries, addMissing: bool, ignoreRequired: bool, host: Host)
      returns (r: Result<Json2Obj.JSON2Obj>)
      modifies if arg.DictArg? then {arg.d} else {}
      ensures arg.NonDictArg? ==> r == Raise(TypeError)
      ensures arg.DictArg? ==>
        var o := Validate(template, old(arg.d.items), defaults, Options(addMissing, ignoreRequired), host);
        arg.d.items == o.user && (r.Ok? <==> o.result.Ok?) &&
        (r.Ok? ==> fresh(r.value) && r.value.attrs == o.result.value) &&
        (r.Err? ==> r.error == o.result.error)
    {
      var user := GetUserConfig(arg);
      if user.Err? {
        return Err(user.error);
      }
      var d := user.value;
      var opts := Options(addMissing, ignoreRequired);
      var file := ReadDefaultConfig(defaults, host);
      if file.Err? {
        return Err(file.error);
      }
      // Every `default_config.get_obj()` of the source builds the same object.
      var obj := file.value.GetObj(host);
      if obj.Err? {
        return Err(obj.error);
      }
      var attrs := obj.value.attrs;
      var listing := Json2Obj.AsDict(attrs);
      for i := 0 to |listing|
        invariant ValidateSections(template, attrs, listing, i, d.items, opts, host)
               == ValidateSections(template, attrs, listing, 0, old(d.items), opts, host)
      {
        var name := listing[i].0;
        var failure := EnsureSection(d, attrs, name, opts);
        if failure.Some? {
          return Err(failure.value);
        }
        var kind := SectionKind(template, name);
        if kind.Err? {
          return Err(kind.error);
        }
        if kind.value.VariableSection? {
          var vc := VarConfig(attrs, name);
          if vc.Err? {
            return Err(vc.error);
          }
          failure := FillVariables(d, name, vc.value, opts, host);
          if failure.Some? {
            return Err(failure.value);
          }
        }
      }
      r := Json2Obj.JSON2Obj.New(Dict(d.items, true), Json2Obj.CheckEnvVars, host);
    }
  }
}
