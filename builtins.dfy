/** The Python built-ins the library leans on: truth value, `is True`,
    `str()`, `int()`, `str.lower()` and the `in` operator. */
module Builtins {
  import opened Errors
  import opened Values
  import opened Dicts

  /** `bool(v)`. JSON2Obj and ConfigVariable define neither `__bool__`
      nor `__len__`, so their instances are always true. */
  predicate Truthy(v: Value) {
    match v
    case Null => false
    case Bool(b) => b
    case Int(n) => n != 0
    case Float(x) => x != 0.0
    case Str(s) => s != ""
    case List(items) => items != []
    case Dict(e, _) => e != []
    case Obj(_) => true
    case Variable(_) => true
  }

  /** `v is True` */
  predicate IsTrue(v: Value) {
    v == Bool(true)
  }

  /** `v is False` */
  predicate IsFalse(v: Value) {
    v == Bool(false)
  }

  function DigitChar(d: nat): char
    requires d < 10
  {
    "0123456789"[d]
  }

  predicate IsDigit(c: char) {
    '0' <= c <= '9'
  }

  function DigitValue(c: char): nat
    requires IsDigit(c)
  {
    (c as int) - ('0' as int)
  }

  /** Decimal text of a natural number, without leading zeros. */
  function NatToString(n: nat): (s: string)
    ensures |s| > 0 && IsDigit(s[0])
    ensures forall i :: 0 <= i < |s| ==> IsDigit(s[i])
  {
    if n < 10 then [DigitChar(n)] else NatToString(n / 10) + [DigitChar(n % 10)]
  }

  /** `str(n)` for an int */
  function IntToString(n: int): string {
    if n < 0 then "-" + NatToString(-n) else NatToString(n)
  }

  /** `c.isspace()` as `int()` applies it to its argument's ends. */
  predicate IsSpace(c: char) {
    c == ' ' || '\t' <= c <= '\r' || '\U{1c}' <= c <= '\U{1f}' ||
    c == '\U{85}' || c == '\U{a0}' || c == '\U{1680}' || '\U{2000}' <= c <= '\U{200a}' ||
    c == '\U{2028}' || c == '\U{2029}' || c == '\U{202f}' || c == '\U{205f}' || c == '\U{3000}'
  }

  /** `s.strip()`: no white space is left at either end, and only a string
      of white space strips to nothing. */
  function Strip(s: string): (t: string)
    ensures |t| <= |s|
    ensures t != [] ==> !IsSpace(t[0]) && !IsSpace(t[|t| - 1])
    ensures t == [] <==> forall i :: 0 <= i < |s| ==> IsSpace(s[i])
    decreases |s|
  {
    if s == [] then s
    else if IsSpace(s[0]) then Strip(s[1..])
    else if IsSpace(s[|s| - 1]) then Strip(s[..|s| - 1])
    else s
  }

  /** The digit part `int()` accepts in base 10: digits, with single
      underscores allowed between two digits. */
  predicate ValidDigits(s: string) {
    |s| > 0 && IsDigit(s[0]) && IsDigit(s[|s| - 1]) &&
    (forall i :: 0 <= i < |s| ==> IsDigit(s[i]) || s[i] == '_') &&
    (forall i :: 0 <= i < |s| - 1 ==> s[i] == '_' ==> IsDigit(s[i + 1]))
  }

  /** The number a digit string denotes, underscores skipped. */
  function DigitsValue(s: string): nat
    requires forall i :: 0 <= i < |s| ==> IsDigit(s[i]) || s[i] == '_'
  {
    if s == [] then 0
    else if s[|s| - 1] == '_' then DigitsValue(s[..|s| - 1])
    else 10 * DigitsValue(s[..|s| - 1]) + DigitValue(s[|s| - 1])
  }

  /** `int(s)` for a str, in base 10: surrounding white space, an
      optional sign, then digits; `None` where Python raises ValueError. */
  function ParseInt(s: string): Option<int> {
    var t := Strip(s);
    if |t| > 0 && (t[0] == '+' || t[0] == '-') then
      if ValidDigits(t[1..]) then
        var m: int := DigitsValue(t[1..]);
        Some(if t[0] == '-' then -m else m)
      else None
    else if ValidDigits(t) then Some(DigitsValue(t))
    else None
  }

  lemma {:induction false} NatToStringValue(n: nat)
    ensures DigitsValue(NatToString(n)) == n
  {
    var s := NatToString(n);
    if n >= 10 {
      NatToStringValue(n / 10);
      assert s[..|s| - 1] == NatToString(n / 10);
    }
  }

  lemma NatToStringValid(n: nat)
    ensures ValidDigits(NatToString(n))
  {
  }

  lemma StripUnchanged(s: string)
    requires |s| > 0 && !IsSpace(s[0]) && !IsSpace(s[|s| - 1])
    ensures Strip(s) == s
  {
  }

  /** `int(str(n)) == n` for every int. */
  lemma {:induction false} ParseIntToString(n: int)
    ensures ParseInt(IntToString(n)) == Some(n)
  {
    var s := IntToString(n);
    var m: nat := if n < 0 then -n else n;
    NatToStringValue(m);
    NatToStringValid(m);
    StripUnchanged(s);
    if n < 0 {
      assert s[1..] == NatToString(m);
    }
  }

  /** `int(v)`: a bool gives 0 or 1, a float is truncated toward zero, a
      str is parsed; None and containers raise TypeError. */
  function ToInt(v: Value): (r: Result<Value>)
    ensures r.Ok? ==> r.value.Int?
    ensures r.Err? ==> r.error.kind == (if v.Str? then ValueError else TypeError)
    ensures v.Int? ==> r == Ok(v)
  {
    match v
    case Bool(b) => Ok(Int(if b then 1 else 0))
    case Int(_) => Ok(v)
    case Float(x) => Ok(Int(if x >= 0.0 then x.Floor else -((-x).Floor)))
    case Str(s) =>
      (match ParseInt(s)
       case Some(n) => Ok(Int(n))
       case None => Err(Error(ValueError, [s])))
    case _ => Raise(TypeError)
  }

  /** `str(v)`; the text of floats, containers and objects comes from the host. */
  function StrOf(v: Value, host: Host): string {
    match v
    case Null => "None"
    case Bool(b) => if b then "True" else "False"
    case Int(n) => IntToString(n)
    case Str(s) => s
    case _ => host.repr(v)
  }

  /** `str.lower()` on ASCII letters; other characters are kept. */
  function Lower(s: string): (t: string)
    ensures |t| == |s|
    ensures forall i :: 0 <= i < |s| ==> t[i] == LowerChar(s[i])
  {
    seq(|s|, i requires 0 <= i < |s| => LowerChar(s[i]))
  }

  function LowerChar(c: char): char {
    if 'A' <= c <= 'Z' then ((c as int) + 32) as char else c
  }

  /** `k` occurs in `s` at some position. */
  predicate IsSubstring(k: string, s: string) {
    k <= s || (s != [] && IsSubstring(k, s[1..]))
  }

  /** `key in container` for a str key: a dict tests its keys, a str its
      substrings, a list its items; other objects raise TypeError. */
  function Contains(container: Value, key: string): (r: Result<bool>)
    ensures r.Err? <==> !(container.Dict? || container.Str? || container.List?)
    ensures r.Err? ==> r.error.kind == TypeError
    ensures container.Dict? ==> r == Ok(key in Keys(container.entries))
  {
    match container
    case Dict(e, _) => Ok(key in Keys(e))
    case Str(s) => Ok(IsSubstring(key, s))
    case List(items) => Ok(Str(key) in items)
    case _ => Raise(TypeError)
  }
}
