/** JSON2Obj: a nested dict turned into an object whose attributes are the
    dict's keys, and back. An instance is modelled by its attribute dict;
    a nested instance held as an attribute value is the `Obj` value of its
    attribute dict. */
module Json2Obj {
  import opened Errors
  import opened Values
  import opened Dicts
  import EnvVars

  /** The `env_var_function` argument: `None`, the default
      `check_for_env_vars`, or any other callable. */
  datatype Resolver = NoResolver | CheckEnvVars | Custom(f: Value -> Result<Value>)

  /** A caller-supplied resolver may return any value, so the objects it
      leads to are not smaller than its argument; nested objects always use
      the default resolver, which ranks lower. */
  function Rank(r: Resolver): nat {
    if r.Custom? then 1 else 0
  }

  /** `value = self.__env_var_function(value)`, skipped for `None`. */
  function Resolve(r: Resolver, v: Value, host: Host): (res: Result<Value>)
    ensures !r.Custom? && res.Ok? ==> res.value == v || res.value.Str?
  {
    match r
    case NoResolver => Ok(v)
    case CheckEnvVars => EnvVars.CheckForEnvVars(v, host)
    case Custom(f) => f(v)
  }

  /** The attribute dict `JSON2Obj(data, r)` ends with. */
  function Objectify(data: Value, r: Resolver, host: Host): (res: Result<Entries>)
    ensures !data.Dict? ==> res == Raise(TypeError)
    ensures data.Dict? && data.entries == [] ==> res == Ok([])
    ensures data.Dict? && data.entries != [] ==> res == FromDictResult(data, r, host, [])
    decreases Rank(r), data, 2
  {
    if !data.Dict? then Raise(TypeError)
    else if data.entries == [] then Ok([])
    else FromDictResult(data, r, host, [])
  }

  /** `__from_dict` run on an object whose attributes are `attrs`: reserved
      keys are refused before anything is set. */
  function FromDictResult(data: Value, r: Resolver, host: Host, attrs: Entries): (res: Result<Entries>)
    requires data.Dict?
    ensures "__from_dict" in Keys(data.entries) ==> res == Err(Error(KeyError, ["__from_dict"]))
    ensures "__from_dict" !in Keys(data.entries) && "__to_dict" in Keys(data.entries) ==>
      res == Err(Error(KeyError, ["__to_dict"]))
    decreases Rank(r), data, 1
  {
    if "__from_dict" in Keys(data.entries) then Err(Error(KeyError, ["__from_dict"]))
    else if "__to_dict" in Keys(data.entries) then Err(Error(KeyError, ["__to_dict"]))
    else SetFields(data, r, host, 0, attrs)
  }

  /** The attribute value an input value becomes: a dict is wrapped into a
      new object (with the default resolver), a list is rebuilt. */
  function Wrap(v: Value, host: Host): Result<Value>
    decreases 0, v, 3
  {
    if v.Dict? then
      var a :- Objectify(v, CheckEnvVars, host);
      Ok(Obj(a))
    else if v.List? then
      var items :- RebuildList(v, 0, []);
      Ok(List(items))
    else Ok(v)
  }

  /** The `setattr` loop of `__from_dict`, from the `i`-th input entry on. */
  function SetFields(data: Value, r: Resolver, host: Host, i: nat, attrs: Entries): Result<Entries>
    requires data.Dict? && i <= |data.entries|
    decreases Rank(r), data, 0, |data.entries| - i
  {
    if i == |data.entries| then Ok(attrs)
    else
      var v :- Resolve(r, data.entries[i].1, host);
      var w :- if v.Dict? || v.List? then Wrap(v, host) else Ok(v);
      SetFields(data, r, host, i + 1, Set(attrs, data.entries[i].0, w))
  }

  /** `__from_list`, from the `i`-th item on: an object or a dict item
      fails (`item.to_dict()` lacks its argument, `from_dict` always
      fails), an inner list is rebuilt, anything else is kept. */
  function RebuildList(lst: Value, i: nat, acc: seq<Value>): Result<seq<Value>>
    requires lst.List? && i <= |lst.items|
    decreases lst, |lst.items| - i
  {
    if i == |lst.items| then Ok(acc)
    else
      var item := lst.items[i];
      if item.Obj? || item.Dict? then Raise(TypeError)
      else if item.List? then
        var inner :- RebuildList(item, 0, []);
        RebuildList(lst, i + 1, acc + [List(inner)])
      else RebuildList(lst, i + 1, acc + [item])
  }

  /** `JSON2Obj.from_dict(d, f)` first builds `JSON2Obj(env_var_function=f)`,
      whose data is `None`; that construction raises before `d` is looked at. */
  function StaticFromDict(input: Value, r: Resolver, host: Host): (res: Result<Entries>)
    ensures res.Err? && res.error.kind == TypeError
  {
    Objectify(Null, r, host)
  }

  /** Field names `to_dict` exports: neither `__…` nor `_JSON2Obj…`. */
  predicate Visible(f: string) {
    !("__" <= f) && !("_JSON2Obj" <= f)
  }

  /** `__dict_fields__` */
  function DictFields(attrs: Entries): (fs: seq<string>)
    ensures forall f :: f in fs <==> f in Keys(attrs) && Visible(f)
    ensures forall f :: f in fs ==> Visible(f)
  {
    if attrs == [] then []
    else (if Visible(attrs[0].0) then [attrs[0].0] else []) + DictFields(attrs[1..])
  }

  /** `to_dict` of the object `o`, from its `i`-th attribute on. */
  function Fields(o: Value, i: nat): Entries
    requires o.Obj? && i <= |o.attrs|
    decreases o, 0, |o.attrs| - i
  {
    if i == |o.attrs| then []
    else
      var (f, v) := o.attrs[i];
      (if Visible(f) then [(f, DictForm(v))] else []) + Fields(o, i + 1)
  }

  /** An attribute value as `to_dict` outputs it: a nested object becomes
      its dict, anything else (lists included) is kept. */
  function DictForm(v: Value): Value
    decreases v, 1
  {
    if v.Obj? then Dict(Fields(v, 0), true) else v
  }

  /** `JSON2Obj.to_dict(obj)` */
  function AsDict(attrs: Entries): Entries {
    Fields(Obj(attrs), 0)
  }

  lemma {:induction false} FieldsKeys(o: Value, i: nat)
    requires o.Obj? && i <= |o.attrs|
    ensures Keys(Fields(o, i)) == DictFields(o.attrs[i..])
    decreases |o.attrs| - i
  {
    if i < |o.attrs| {
      FieldsKeys(o, i + 1);
      assert o.attrs[i..][1..] == o.attrs[i + 1..];
      KeysAppend(if Visible(o.attrs[i].0) then [(o.attrs[i].0, DictForm(o.attrs[i].1))] else [], Fields(o, i + 1));
    }
  }

  lemma KeysAppend<V>(a: seq<(string, V)>, b: seq<(string, V)>)
    ensures Keys(a + b) == Keys(a) + Keys(b)
  {
  }

  /** `to_dict` exports exactly the fields `__dict_fields__` lists, in order. */
  lemma ToDictKeys(attrs: Entries)
    ensures Keys(AsDict(attrs)) == DictFields(attrs)
  {
    FieldsKeys(Obj(attrs), 0);
    assert attrs[0..] == attrs;
  }

  /** Distinct attribute names give distinct `to_dict` keys. */
  lemma {:induction false} FieldsDistinct(o: Value, i: nat)
    requires o.Obj? && i <= |o.attrs| && Distinct(o.attrs)
    ensures Distinct(Fields(o, i))
    decreases |o.attrs| - i
  {
    if i < |o.attrs| {
      FieldsDistinct(o, i + 1);
      var (f, v) := o.attrs[i];
      if Visible(f) {
        FieldsKeys(o, i + 1);
        var later := o.attrs[i + 1..];
        assert f !in Keys(later) by {
          forall j | 0 <= j < |later| ensures later[j].0 != f {
            assert later[j] == o.attrs[i + 1 + j];
          }
        }
        assert Fields(o, i) == [(f, DictForm(v))] + Fields(o, i + 1);
        DistinctCons((f, DictForm(v)), Fields(o, i + 1));
      } else {
        assert Fields(o, i) == Fields(o, i + 1);
      }
    }
  }

  lemma AsDictDistinct(attrs: Entries)
    requires Distinct(attrs)
    ensures Distinct(AsDict(attrs))
  {
    FieldsDistinct(Obj(attrs), 0);
  }

  class JSON2Obj {
    var attrs: Entries
    var resolver: Resolver

    constructor (r: Resolver)
      ensures attrs == [] && resolver == r
    {
      attrs := [];
      resolver := r;
    }

    /** `JSON2Obj(data, r)` */
    static method New(data: Value, r: Resolver, host: Host) returns (res: Result<JSON2Obj>)
      ensures res.Ok? <==> Objectify(data, r, host).Ok?
      ensures res.Ok? ==> fresh(res.value) && res.value.attrs == Objectify(data, r, host).value && res.value.resolver == r
      ensures res.Err? ==> res.error == Objectify(data, r, host).error
      decreases Rank(r), data, 2
    {
      if !data.Dict? {
        return Raise(TypeError);
      }
      var o := new JSON2Obj(r);
      if data.entries != [] {
        var failure := o.FromDict(data, host);
        if failure.Some? {
          return Err(failure.value);
        }
      }
      return Ok(o);
    }

    /** `self.__from_dict(data)` */
    method FromDict(data: Value, host: Host) returns (failure: Option<Error>)
      requires data.Dict?
      modifies this
      ensures resolver == old(resolver)
      ensures failure.None? <==> FromDictResult(data, resolver, host, old(attrs)).Ok?
      ensures failure.None? ==> attrs == FromDictResult(data, resolver, host, old(attrs)).value
      ensures failure.Some? ==> failure.value == FromDictResult(data, resolver, host, old(attrs)).error
      decreases Rank(resolver), data, 1
    {
      if "__from_dict" in Keys(data.entries) {
        return Some(Error(KeyError, ["__from_dict"]));
      }
      if "__to_dict" in Keys(data.entries) {
        return Some(Error(KeyError, ["__to_dict"]));
      }
      failure := SetAttributes(data, host);
    }

    /** The `setattr` loop of `__from_dict`. */
    method SetAttributes(data: Value, host: Host) returns (failure: Option<Error>)
      requires data.Dict?
      modifies this
      ensures resolver == old(resolver)
      ensures failure.None? <==> SetFields(data, resolver, host, 0, old(attrs)).Ok?
      ensures failure.None? ==> attrs == SetFields(data, resolver, host, 0, old(attrs)).value
      ensures failure.Some? ==> failure.value == SetFields(data, resolver, host, 0, old(attrs)).error
      decreases Rank(resolver), data, 0
    {
      for i := 0 to |data.entries|
        invariant resolver == old(resolver)
        invariant SetFields(data, resolver, host, i, attrs) == SetFields(data, resolver, host, 0, old(attrs))
      {
        var (key, value) := data.entries[i];
        var resolved := Resolve(resolver, value, host);
        if resolved.Err? {
          return Some(resolved.error);
        }
        value := resolved.value;
        if value.Dict? || value.List? {
          var wrapped := WrapValue(value, host);
          if wrapped.Err? {
            return Some(wrapped.error);
          }
          value := wrapped.value;
        }
        attrs := Set(attrs, key, value);
      }
      return None;
    }

    /** The wrapping step of `__from_dict` for one value: a dict becomes a
        new object, a list is rebuilt. */
    static method WrapValue(v: Value, host: Host) returns (res: Result<Value>)
      requires v.Dict? || v.List?
      ensures res == Wrap(v, host)
      decreases 0, v, 3
    {
      if v.Dict? {
        var inner := New(v, CheckEnvVars, host);
        if inner.Err? {
          return Err(inner.error);
        }
        return Ok(Obj(inner.value.attrs));
      }
      var items := FromList(v);
      if items.Err? {
        return Err(items.error);
      }
      return Ok(List(items.value));
    }

    /** `JSON2Obj.__from_list(lst)` */
    static method FromList(lst: Value) returns (res: Result<seq<Value>>)
      requires lst.List?
      ensures res == RebuildList(lst, 0, [])
      decreases lst
    {
      var output: seq<Value> := [];
      for i := 0 to |lst.items|
        invariant RebuildList(lst, i, output) == RebuildList(lst, 0, [])
      {
        var item := lst.items[i];
        if item.Obj? || item.Dict? {
          return Raise(TypeError);
        } else if item.List? {
          var inner := FromList(item);
          if inner.Err? {
            return Err(inner.error);
          }
          output := output + [List(inner.value)];
        } else {
          output := output + [item];
        }
      }
      return Ok(output);
    }

    /** `JSON2Obj.to_dict(self)`: the output dict is filled field by field. */
    method ToDict() returns (output: Entries)
      requires Distinct(attrs)
      ensures output == AsDict(attrs)
    {
      output := [];
      for i := 0 to |attrs|
        invariant output + Fields(Obj(attrs), i) == AsDict(attrs)
        invariant Keys(output) == DictFields(attrs[..i])
      {
        ToDictStep(attrs, i, output);
        if Visible(attrs[i].0) {
          output := Set(output, attrs[i].0, DictForm(attrs[i].1));
        }
      }
      assert Fields(Obj(attrs), |attrs|) == [];
      assert output + [] == output;
    }
  }

  /** One field of the `to_dict` loop: a visible field is new to the
      output, so assigning it appends it. */
  lemma ToDictStep(attrs: Entries, i: nat, output: Entries)
    requires Distinct(attrs) && i < |attrs|
    requires output + Fields(Obj(attrs), i) == AsDict(attrs)
    requires Keys(output) == DictFields(attrs[..i])
    ensures var next := if Visible(attrs[i].0) then Set(output, attrs[i].0, DictForm(attrs[i].1)) else output;
      next + Fields(Obj(attrs), i + 1) == AsDict(attrs) && Keys(next) == DictFields(attrs[..i + 1])
  {
    var (f, v) := attrs[i];
    DictFieldsAppend(attrs[..i], attrs[i]);
    assert attrs[..i + 1] == attrs[..i] + [attrs[i]];
    if Visible(f) {
      assert f !in Keys(attrs[..i]) by {
        forall j | 0 <= j < i ensures attrs[..i][j].0 != f {
          assert attrs[..i][j] == attrs[j];
        }
      }
      SetFresh(output, f, DictForm(v));
      KeysAppend(output, [(f, DictForm(v))]);
      assert Fields(Obj(attrs), i) == [(f, DictForm(v))] + Fields(Obj(attrs), i + 1);
      AppendAssoc(output, [(f, DictForm(v))], Fields(Obj(attrs), i + 1));
    } else {
      assert Fields(Obj(attrs), i) == Fields(Obj(attrs), i + 1);
    }
  }

  lemma AppendAssoc<T>(a: seq<T>, b: seq<T>, c: seq<T>)
    ensures a + (b + c) == a + b + c
  {
  }

  lemma {:induction false} DictFieldsAppend(a: Entries, e: (string, Value))
    ensures DictFields(a + [e]) == DictFields(a) + (if Visible(e.0) then [e.0] else [])
  {
    if a != [] {
      assert (a + [e])[1..] == a[1..] + [e];
      DictFieldsAppend(a[1..], e);
    }
  }

  /** Assigning a new key appends it. */
  lemma {:induction false} SetFresh<V>(d: seq<(string, V)>, k: string, v: V)
    requires k !in Keys(d)
    ensures Set(d, k, v) == d + [(k, v)]
  {
    if d != [] {
      var t := d[1..];
      assert k != d[0].0 && k !in Keys(t) by {
        KeysCons(d[0], t);
        assert d == [d[0]] + t;
      }
      assert Set(t, k, v) == t + [(k, v)] by {
        SetFresh(t, k, v);
      }
      assert Set(d, k, v) == [d[0]] + Set(t, k, v);
      assert d + [(k, v)] == [d[0]] + (t + [(k, v)]) by {
        assert d == [d[0]] + t;
        AppendAssoc([d[0]], t, [(k, v)]);
      }
    }
  }

  /** Values the mapper keeps as they are inside a list. */
  predicate ListPortable(v: Value) {
    match v
    case Dict(_, _) => false
    case Obj(_) => false
    case List(items) => forall i :: 0 <= i < |items| ==> ListPortable(items[i])
    case _ => true
  }

  /** A plain dict the default resolver would replace. */
  predicate IsSentinel(v: Value) {
    v.Dict? && v.exact && ("env_var" in Keys(v.entries) || "enc_env_var" in Keys(v.entries))
  }

  /** Values that come back from `to_dict(JSON2Obj(...))` as they went in:
      scalars, lists of scalars and lists, and dicts that are not
      sentinels and whose keys are visible fields. */
  predicate Portable(v: Value)
    decreases v, 1
  {
    match v
    case Dict(_, _) => !IsSentinel(v) && PortableEntries(v)
    case Obj(_) => false
    case List(_) => ListPortable(v)
    case _ => true
  }

  predicate PortableEntries(d: Value)
    requires d.Dict?
    decreases d, 0
  {
    Distinct(d.entries) &&
    forall i :: 0 <= i < |d.entries| ==> Visible(d.entries[i].0) && Portable(d.entries[i].1)
  }

  /** The attribute value a portable value is expected to become: every
      dict turns into an object with the same keys. */
  function Wrapped(v: Value): Value
    decreases v, 1
  {
    if v.Dict? then Obj(WrappedEntries(v, 0)) else v
  }

  function WrappedEntries(d: Value, i: nat): (w: Entries)
    requires d.Dict? && i <= |d.entries|
    ensures |w| == |d.entries| - i
    decreases d, 0, |d.entries| - i
  {
    if i == |d.entries| then [] else [(d.entries[i].0, Wrapped(d.entries[i].1))] + WrappedEntries(d, i + 1)
  }

  /** The same value with every dict a plain `dict`. */
  function Exact(v: Value): Value
    decreases v, 1
  {
    if v.Dict? then Dict(ExactEntries(v, 0), true) else v
  }

  function ExactEntries(d: Value, i: nat): (x: Entries)
    requires d.Dict? && i <= |d.entries|
    ensures |x| == |d.entries| - i
    decreases d, 0, |d.entries| - i
  {
    if i == |d.entries| then [] else [(d.entries[i].0, Exact(d.entries[i].1))] + ExactEntries(d, i + 1)
  }

  lemma {:induction false} WrappedEntriesAt(d: Value, i: nat, j: nat)
    requires d.Dict? && i <= j < |d.entries|
    ensures WrappedEntries(d, i)[j - i] == (d.entries[j].0, Wrapped(d.entries[j].1))
    decreases j - i
  {
    if i < j {
      WrappedEntriesAt(d, i + 1, j);
    }
  }

  lemma {:induction false} RebuildListPortable(lst: Value, i: nat, acc: seq<Value>)
    requires lst.List? && i <= |lst.items| && ListPortable(lst)
    ensures RebuildList(lst, i, acc) == Ok(acc + lst.items[i..])
    decreases lst, |lst.items| - i
  {
    if i < |lst.items| {
      var item := lst.items[i];
      assert ListPortable(item);
      RebuildListPortable(lst, i + 1, acc + [item]);
      assert acc + lst.items[i..] == acc + [item] + lst.items[i + 1..];
      if item.List? {
        RebuildListPortable(item, 0, []);
        assert [] + item.items[0..] == item.items;
        assert List(item.items) == item;
      }
    } else {
      assert acc + lst.items[i..] == acc;
    }
  }

  /** The default resolver leaves a portable value alone. */
  lemma ResolvePortable(r: Resolver, v: Value, host: Host)
    requires !r.Custom? && Portable(v)
    ensures Resolve(r, v, host) == Ok(v)
  {
  }

  lemma {:induction false} SetFieldsPortable(data: Value, r: Resolver, host: Host, i: nat, acc: Entries)
    requires data.Dict? && i <= |data.entries| && !r.Custom? && PortableEntries(data)
    requires forall j :: i <= j < |data.entries| ==> data.entries[j].0 !in Keys(acc)
    ensures SetFields(data, r, host, i, acc) == Ok(acc + WrappedEntries(data, i))
    decreases data, 0, |data.entries| - i
  {
    if i < |data.entries| {
      var k := data.entries[i].0;
      var v := data.entries[i].1;
      assert Portable(v);
      if v.Dict? || v.List? {
        WrapPortable(v, host);
      }
      DisjointStep(data.entries, i, acc, Wrapped(v));
      SetFieldsPortable(data, r, host, i + 1, acc + [(k, Wrapped(v))]);
      SetFieldsStep(data, r, host, i, acc);
    } else {
      assert acc + WrappedEntries(data, i) == acc;
    }
  }

  /** One entry of the `setattr` loop on a portable dict. */
  lemma SetFieldsStep(data: Value, r: Resolver, host: Host, i: nat, acc: Entries)
    requires data.Dict? && i < |data.entries| && !r.Custom? && Portable(data.entries[i].1)
    requires data.entries[i].0 !in Keys(acc)
    requires data.entries[i].1.Dict? || data.entries[i].1.List? ==>
      Wrap(data.entries[i].1, host) == Ok(Wrapped(data.entries[i].1))
    requires SetFields(data, r, host, i + 1, acc + [(data.entries[i].0, Wrapped(data.entries[i].1))]) ==
      Ok(acc + [(data.entries[i].0, Wrapped(data.entries[i].1))] + WrappedEntries(data, i + 1))
    ensures SetFields(data, r, host, i, acc) == Ok(acc + WrappedEntries(data, i))
  {
    var k := data.entries[i].0;
    var v := data.entries[i].1;
    var w := Wrapped(v);
    ResolvePortable(r, v, host);
    SetFieldsUnfold(data, r, host, i, acc, v, w);
    SetFresh(acc, k, w);
    WrappedEntriesCons(data, i);
  }

  lemma WrappedEntriesCons(data: Value, i: nat)
    requires data.Dict? && i < |data.entries|
    ensures forall acc: Entries ::
      acc + [(data.entries[i].0, Wrapped(data.entries[i].1))] + WrappedEntries(data, i + 1) == acc + WrappedEntries(data, i)
  {
  }

  lemma DisjointStep(e: Entries, i: nat, acc: Entries, w: Value)
    requires Distinct(e) && i < |e|
    requires forall j :: i <= j < |e| ==> e[j].0 !in Keys(acc)
    ensures forall j :: i + 1 <= j < |e| ==> e[j].0 !in Keys(acc + [(e[i].0, w)])
  {
    KeysAppend(acc, [(e[i].0, w)]);
  }

  /** One step of the `setattr` loop whose value resolves and wraps. */
  lemma SetFieldsUnfold(data: Value, r: Resolver, host: Host, i: nat, acc: Entries, v: Value, w: Value)
    requires data.Dict? && i < |data.entries|
    requires Resolve(r, data.entries[i].1, host) == Ok(v)
    requires (if v.Dict? || v.List? then Wrap(v, host) else Ok(v)) == Ok(w)
    ensures SetFields(data, r, host, i, acc) == SetFields(data, r, host, i + 1, Set(acc, data.entries[i].0, w))
  {
  }

  lemma {:induction false} WrapPortable(v: Value, host: Host)
    requires (v.Dict? || v.List?) && Portable(v)
    ensures Wrap(v, host) == Ok(Wrapped(v))
    decreases v, 2
  {
    if v.Dict? {
      ObjectifyPortable(v, host);
    } else {
      RebuildListPortable(v, 0, []);
      assert [] + v.items[0..] == v.items;
    }
  }

  lemma {:induction false} ObjectifyPortable(v: Value, host: Host)
    requires v.Dict? && PortableEntries(v)
    ensures Objectify(v, CheckEnvVars, host) == Ok(WrappedEntries(v, 0))
    decreases v, 1
  {
    if v.entries != [] {
      NoReservedKeys(v);
      SetFieldsPortable(v, CheckEnvVars, host, 0, []);
      assert [] + WrappedEntries(v, 0) == WrappedEntries(v, 0);
    }
  }

  lemma NoReservedKeys(v: Value)
    requires v.Dict? && PortableEntries(v)
    ensures "__from_dict" !in Keys(v.entries) && "__to_dict" !in Keys(v.entries)
  {
    assert !Visible("__from_dict") && !Visible("__to_dict");
  }

  lemma {:induction false} FieldsWrapped(d: Value, i: nat)
    requires d.Dict? && i <= |d.entries| && PortableEntries(d)
    ensures Fields(Obj(WrappedEntries(d, 0)), i) == ExactEntries(d, i)
    decreases d, 0, |d.entries| - i
  {
    var w := WrappedEntries(d, 0);
    if i < |d.entries| {
      var (k, v) := d.entries[i];
      WrappedEntriesAt(d, 0, i);
      if v.Dict? {
        FieldsWrapped(v, 0);
      }
      assert DictForm(Wrapped(v)) == Exact(v);
      FieldsWrapped(d, i + 1);
    }
  }

  /** `to_dict(JSON2Obj(d, r)) == d` for a portable `d` and the default or
      no resolver: nested dicts become nested objects and come back as
      dicts, lists and scalars are kept. */
  lemma RoundTrip(d: Entries, exact: bool, r: Resolver, host: Host)
    requires !r.Custom? && PortableEntries(Dict(d, exact))
    ensures Objectify(Dict(d, exact), r, host) == Ok(WrappedEntries(Dict(d, exact), 0))
    ensures AsDict(Objectify(Dict(d, exact), r, host).value) == ExactEntries(Dict(d, exact), 0)
  {
    var data := Dict(d, exact);
    if d != [] {
      NoReservedKeys(data);
      SetFieldsPortable(data, r, host, 0, []);
      assert [] + WrappedEntries(data, 0) == WrappedEntries(data, 0);
    }
    FieldsWrapped(data, 0);
  }

  /** What `JSON2Obj.get(obj, key, default)` finds: a stored attribute,
      something the class itself defines, or the default. */
  datatype Attribute = Found(value: Value) | ClassAttribute(name: string)

  /** Names an instance answers from its class: the methods of JSON2Obj,
      the slot holding its resolver, and what every Python object has. */
  const ClassAttributes: set<string> := {
    "__init__", "__eq__", "__dict_fields__", "from_string", "_JSON2Obj__from_list", "from_dict",
    "_JSON2Obj__from_dict", "to_dict", "_JSON2Obj__to_dict", "__repr__", "get",
    "_JSON2Obj__env_var_function", "__module__", "__doc__", "__dict__", "__weakref__", "__hash__",
    "__class__", "__delattr__", "__dir__", "__format__", "__ge__", "__getattribute__", "__gt__",
    "__init_subclass__", "__le__", "__lt__", "__ne__", "__new__", "__reduce__", "__reduce_ex__",
    "__setattr__", "__sizeof__", "__str__", "__subclasshook__"
  }

  /** `JSON2Obj.get(obj, key, default)`: instance attributes come first. */
  function GetAttr(attrs: Entries, key: string, default: Value): Attribute {
    match Get(attrs, key)
    case Some(v) => Found(v)
    case None => if key in ClassAttributes then ClassAttribute(key) else Found(default)
  }

  lemma {:induction false} GetWrapped(d: Value, k: string)
    requires d.Dict? && Distinct(d.entries)
    ensures Get(WrappedEntries(d, 0), k) == (match Get(d.entries, k) case Some(v) => Some(Wrapped(v)) case None => None)
  {
    var w := WrappedEntries(d, 0);
    forall j | 0 <= j < |w| ensures w[j].0 == d.entries[j].0 && w[j].1 == Wrapped(d.entries[j].1) {
      WrappedEntriesAt(d, 0, j);
    }
    assert Keys(w) == Keys(d.entries);
    if j :| 0 <= j < |d.entries| && d.entries[j].0 == k {
      GetAt(d.entries, j);
      assert Distinct(w) by {
        forall a, b | 0 <= a < b < |w| ensures w[a].0 != w[b].0 {
          assert w[a].0 == d.entries[a].0 && w[b].0 == d.entries[b].0;
        }
      }
      GetAt(w, j);
    }
  }

  /** `get` returns what the input dict held under `key` (a nested dict as
      an object), even for a key such as "get" that names a method. */
  lemma GetStored(d: Entries, exact: bool, r: Resolver, host: Host, key: string, default: Value)
    requires !r.Custom? && PortableEntries(Dict(d, exact)) && key in Keys(d)
    ensures Objectify(Dict(d, exact), r, host).Ok?
    ensures GetAttr(Objectify(Dict(d, exact), r, host).value, key, default) == Found(Wrapped(Get(d, key).value))
  {
    RoundTrip(d, exact, r, host);
    GetWrapped(Dict(d, exact), key);
  }

  /** A key neither stored nor defined by the class gives the default. */
  lemma GetDefault(d: Entries, exact: bool, r: Resolver, host: Host, key: string, default: Value)
    requires !r.Custom? && PortableEntries(Dict(d, exact)) && key !in Keys(d) && key !in ClassAttributes
    ensures Objectify(Dict(d, exact), r, host).Ok?
    ensures GetAttr(Objectify(Dict(d, exact), r, host).value, key, default) == Found(default)
  {
    RoundTrip(d, exact, r, host);
    GetWrapped(Dict(d, exact), key);
  }

  /** An env-var sentinel given as an attribute value is replaced by the
      variable's value; an unset variable makes construction fail. */
  lemma EnvVarAttribute(key: string, n: string, host: Host)
    requires Visible(key)
    ensures var data := Dict([(key, Dict([("env_var", Str(n))], true))], true);
      var res := Objectify(data, CheckEnvVars, host);
      (n in host.environ ==> res == Ok([(key, Str(host.environ[n]))])) &&
      (n !in host.environ ==> res == Err(Error(KeyError, [n])))
  {
    var sentinel := Dict([("env_var", Str(n))], true);
    var data := Dict([(key, sentinel)], true);
    assert Keys(data.entries) == [key];
    assert !Visible("__from_dict") && !Visible("__to_dict");
    assert Objectify(data, CheckEnvVars, host) == SetFields(data, CheckEnvVars, host, 0, []);
    EnvVars.EnvVarSentinel(sentinel.entries, n, host);
    if n in host.environ {
      var s := Str(host.environ[n]);
      assert Resolve(CheckEnvVars, sentinel, host) == Ok(s);
      assert Set([], key, s) == [(key, s)];
      assert SetFields(data, CheckEnvVars, host, 1, [(key, s)]) == Ok([(key, s)]);
    } else {
      assert Resolve(CheckEnvVars, sentinel, host) == Err(Error(KeyError, [n]));
    }
  }

  /** The value Python's `==` sees: every object replaced by its dict, all
      the way down (inside a list, `==` calls the object's `__eq__`, which
      compares the object's dict). */
  function Norm(v: Value): Value
    decreases v, 1
  {
    match v
    case Obj(_) => Dict(NormFields(v, 0), true)
    case Dict(_, x) => Dict(NormEntries(v, 0), x)
    case List(_) => List(NormItems(v, 0))
    case _ => v
  }

  function NormFields(o: Value, i: nat): Entries
    requires o.Obj? && i <= |o.attrs|
    decreases o, 0, |o.attrs| - i
  {
    if i == |o.attrs| then []
    else (if Visible(o.attrs[i].0) then [(o.attrs[i].0, Norm(o.attrs[i].1))] else []) + NormFields(o, i + 1)
  }

  function NormEntries(d: Value, i: nat): (n: Entries)
    requires d.Dict? && i <= |d.entries|
    ensures |n| == |d.entries| - i
    decreases d, 0, |d.entries| - i
  {
    if i == |d.entries| then [] else [(d.entries[i].0, Norm(d.entries[i].1))] + NormEntries(d, i + 1)
  }

  function NormItems(l: Value, i: nat): (n: seq<Value>)
    requires l.List? && i <= |l.items|
    ensures |n| == |l.items| - i
    decreases l, 0, |l.items| - i
  {
    if i == |l.items| then [] else [Norm(l.items[i])] + NormItems(l, i + 1)
  }

  predicate IsNumber(v: Value) {
    v.Bool? || v.Int? || v.Float?
  }

  /** bool is a subclass of int, and ints compare with floats by value. */
  function NumValue(v: Value): real
    requires IsNumber(v)
  {
    match v
    case Bool(b) => if b then 1.0 else 0.0
    case Int(n) => n as real
    case Float(x) => x
  }

  /** `a == b` for values without objects: numbers by value, lists item by
      item, dicts key by key whatever their order and class. A
      `ConfigVariable` is compared by its fields, not by its identity. */
  predicate DataEq(a: Value, b: Value)
    decreases a, 1
  {
    match a
    case Null => b.Null?
    case Bool(_) => IsNumber(b) && NumValue(a) == NumValue(b)
    case Int(_) => IsNumber(b) && NumValue(a) == NumValue(b)
    case Float(_) => IsNumber(b) && NumValue(a) == NumValue(b)
    case List(x) =>
      b.List? && |x| == |b.items| && forall i :: 0 <= i < |x| ==> DataEq(x[i], b.items[i])
    case Dict(e, _) => b.Dict? && |e| == |b.entries| && forall i :: 0 <= i < |e| ==> HasEqualEntry(a, i, b)
    case _ => b == a
  }

  /** The dict `b` holds the `i`-th key of the dict `a` with an equal value. */
  predicate HasEqualEntry(a: Value, i: nat, b: Value)
    requires a.Dict? && b.Dict? && i < |a.entries|
    decreases a, 0
  {
    exists j :: 0 <= j < |b.entries| && b.entries[j].0 == a.entries[i].0 && DataEq(a.entries[i].1, b.entries[j].1)
  }

  /** `a == b` */
  predicate PyEq(a: Value, b: Value) {
    DataEq(Norm(a), Norm(b))
  }

  /** `obj == other`: the object's dict is compared, with another object's
      dict when `other` is one. */
  predicate Equals(attrs: Entries, other: Value) {
    if other.Obj? then PyEq(Dict(AsDict(attrs), true), Dict(AsDict(other.attrs), true))
    else PyEq(Dict(AsDict(attrs), true), other)
  }

  lemma {:induction false} DataEqReflexive(v: Value)
    ensures DataEq(v, v)
    decreases v
  {
    match v
    case List(x) =>
      forall i | 0 <= i < |x| ensures DataEq(x[i], x[i]) {
        DataEqReflexive(x[i]);
      }
    case Dict(e, _) =>
      forall i | 0 <= i < |e| ensures HasEqualEntry(v, i, v) {
        DataEqReflexive(e[i].1);
      }
    case _ =>
  }

  /** Every object equals itself and its own dict. */
  lemma EqualsReflexive(attrs: Entries)
    ensures Equals(attrs, Obj(attrs))
    ensures Equals(attrs, Dict(AsDict(attrs), true))
  {
    DataEqReflexive(Norm(Dict(AsDict(attrs), true)));
  }

  lemma {:induction false} NormEntriesAt(d: Value, i: nat, j: nat)
    requires d.Dict? && i <= j < |d.entries|
    ensures NormEntries(d, i)[j - i] == (d.entries[j].0, Norm(d.entries[j].1))
    decreases j - i
  {
    if i < j {
      NormEntriesAt(d, i + 1, j);
    }
  }

  lemma {:induction false} ExactEntriesAt(d: Value, i: nat, j: nat)
    requires d.Dict? && i <= j < |d.entries|
    ensures ExactEntries(d, i)[j - i] == (d.entries[j].0, Exact(d.entries[j].1))
    decreases j - i
  {
    if i < j {
      ExactEntriesAt(d, i + 1, j);
    }
  }

  /** Which dict class holds a value's dicts does not matter to `==`. */
  lemma {:induction false} NormExact(v: Value)
    ensures DataEq(Norm(Exact(v)), Norm(v))
    decreases v
  {
    if v.Dict? {
      var ex := Exact(v);
      var a := NormEntries(ex, 0);
      var b := NormEntries(v, 0);
      forall i | 0 <= i < |a| ensures HasEqualEntry(Norm(ex), i, Norm(v)) {
        ExactEntriesAt(v, 0, i);
        NormEntriesAt(ex, 0, i);
        NormEntriesAt(v, 0, i);
        NormExact(v.entries[i].1);
        assert b[i].0 == a[i].0 && DataEq(a[i].1, b[i].1);
      }
    } else {
      DataEqReflexive(Norm(v));
    }
  }

  /** `JSON2Obj(d) == d` for a portable `d` and the default or no resolver. */
  lemma EqualsInput(d: Entries, exact: bool, r: Resolver, host: Host)
    requires !r.Custom? && PortableEntries(Dict(d, exact))
    ensures Objectify(Dict(d, exact), r, host).Ok?
    ensures Equals(Objectify(Dict(d, exact), r, host).value, Dict(d, exact))
  {
    RoundTrip(d, exact, r, host);
    NormExact(Dict(d, exact));
  }
}
