/** Python dicts as insertion-ordered association lists. `Set` is
    `d[k] = v` (an existing key keeps its position, a new key goes last),
    `Update` is `d.update(u)`. Every dict built by these operations has
    distinct keys, as a Python dict does. */
module Dicts {
  import opened Errors

  function Keys<V>(d: seq<(string, V)>): (ks: seq<string>)
    ensures |ks| == |d|
    ensures forall i :: 0 <= i < |d| ==> ks[i] == d[i].0
  {
    seq(|d|, i requires 0 <= i < |d| => d[i].0)
  }

  predicate Distinct<V>(d: seq<(string, V)>) {
    forall i, j :: 0 <= i < j < |d| ==> d[i].0 != d[j].0
  }

  /** `d.get(k)`: the value stored under `k`, if any. */
  function Get<V>(d: seq<(string, V)>, k: string): (r: Option<V>)
    ensures r.Some? <==> k in Keys(d)
  {
    if d == [] then None
    else if d[0].0 == k then Some(d[0].1)
    else Get(d[1..], k)
  }

  /** `d.get(k, default)` */
  function GetOr<V>(d: seq<(string, V)>, k: string, default: V): (r: V)
    ensures k !in Keys(d) ==> r == default
    ensures k in Keys(d) ==> Get(d, k) == Some(r)
  {
    match Get(d, k)
    case Some(v) => v
    case None => default
  }

  lemma {:induction false} GetAt<V>(d: seq<(string, V)>, i: nat)
    requires Distinct(d) && i < |d|
    ensures Get(d, d[i].0) == Some(d[i].1)
  {
    if i > 0 {
      assert d[0].0 != d[i].0;
      GetAt(d[1..], i - 1);
    }
  }

  lemma GetCons<V>(e: (string, V), t: seq<(string, V)>, j: string)
    ensures Get([e] + t, j) == if e.0 == j then Some(e.1) else Get(t, j)
  {
    assert ([e] + t)[1..] == t;
  }

  lemma KeysCons<V>(e: (string, V), t: seq<(string, V)>)
    ensures Keys([e] + t) == [e.0] + Keys(t)
  {
  }

  /** `d[k] = v` */
  function Set<V>(d: seq<(string, V)>, k: string, v: V): (r: seq<(string, V)>)
    ensures Keys(r) == if k in Keys(d) then Keys(d) else Keys(d) + [k]
    ensures Get(r, k) == Some(v)
    ensures forall j :: j != k ==> Get(r, j) == Get(d, j)
    decreases |d|, 1
  {
    if d == [] then [(k, v)]
    else
      assert d == [d[0]] + d[1..];
      if d[0].0 == k then
        SetHere(d[0], d[1..], v);
        [(k, v)] + d[1..]
      else
        SetLater(d[0], d[1..], k, v);
        [d[0]] + Set(d[1..], k, v)
  }

  lemma SetHere<V>(e: (string, V), t: seq<(string, V)>, v: V)
    ensures Keys([(e.0, v)] + t) == Keys([e] + t)
    ensures Get([(e.0, v)] + t, e.0) == Some(v)
    ensures forall j :: j != e.0 ==> Get([(e.0, v)] + t, j) == Get([e] + t, j)
    ensures Distinct([e] + t) ==> Distinct([(e.0, v)] + t)
  {
    KeysCons(e, t);
    KeysCons((e.0, v), t);
    forall j | j != e.0 ensures Get([(e.0, v)] + t, j) == Get([e] + t, j) {
      GetCons((e.0, v), t, j);
      GetCons(e, t, j);
    }
    if Distinct([e] + t) {
      var r := [(e.0, v)] + t;
      forall a, b | 0 <= a < b < |r| ensures r[a].0 != r[b].0 {
        assert r[a].0 == ([e] + t)[a].0 && r[b].0 == ([e] + t)[b].0;
      }
    }
  }

  lemma SetLater<V>(e: (string, V), t: seq<(string, V)>, k: string, v: V)
    requires e.0 != k
    ensures Keys([e] + Set(t, k, v)) == if k in Keys([e] + t) then Keys([e] + t) else Keys([e] + t) + [k]
    ensures Get([e] + Set(t, k, v), k) == Some(v)
    ensures forall j :: j != k ==> Get([e] + Set(t, k, v), j) == Get([e] + t, j)
    decreases |t| + 1, 0
  {
    var s := Set(t, k, v);
    SetLaterKeys(e, t, s, k);
    GetCons(e, s, k);
    forall j | j != k ensures Get([e] + s, j) == Get([e] + t, j) {
      GetCons(e, s, j);
      GetCons(e, t, j);
    }
  }

  /** Assigning a key keeps the keys distinct. */
  lemma {:induction false} SetDistinct<V>(d: seq<(string, V)>, k: string, v: V)
    ensures Distinct(d) ==> Distinct(Set(d, k, v))
    decreases |d|
  {
    if d != [] && Distinct(d) {
      assert d == [d[0]] + d[1..];
      if d[0].0 == k {
        SetHere(d[0], d[1..], v);
      } else {
        DistinctTail(d);
        SetDistinct(d[1..], k, v);
        SetLaterDistinct(d[0], d[1..], Set(d[1..], k, v), k);
      }
    }
  }

  lemma SetLaterKeys<V>(e: (string, V), t: seq<(string, V)>, s: seq<(string, V)>, k: string)
    requires e.0 != k
    requires Keys(s) == if k in Keys(t) then Keys(t) else Keys(t) + [k]
    ensures Keys([e] + s) == if k in Keys([e] + t) then Keys([e] + t) else Keys([e] + t) + [k]
  {
    KeysCons(e, t);
    KeysCons(e, s);
    assert k in Keys([e] + t) <==> k in Keys(t);
    if k !in Keys(t) {
      assert [e.0] + (Keys(t) + [k]) == ([e.0] + Keys(t)) + [k];
    }
  }

  lemma SetLaterDistinct<V>(e: (string, V), t: seq<(string, V)>, s: seq<(string, V)>, k: string)
    requires e.0 != k
    requires Keys(s) == if k in Keys(t) then Keys(t) else Keys(t) + [k]
    requires Distinct(t) ==> Distinct(s)
    requires Distinct([e] + t)
    ensures Distinct([e] + s)
  {
    assert e.0 !in Keys(t) by {
      forall i | 0 <= i < |t| ensures t[i].0 != e.0 {
        assert ([e] + t)[0] == e && ([e] + t)[i + 1] == t[i];
      }
    }
    assert Distinct(t) by {
      forall a, b | 0 <= a < b < |t| ensures t[a].0 != t[b].0 {
        assert ([e] + t)[a + 1] == t[a] && ([e] + t)[b + 1] == t[b];
      }
    }
    var r := [e] + s;
    forall a, b | 0 <= a < b < |r| ensures r[a].0 != r[b].0 {
      if a == 0 {
        assert r[b].0 == Keys(s)[b - 1];
      } else {
        assert r[a] == s[a - 1] && r[b] == s[b - 1];
      }
    }
  }

  /** `d.update(u)`: the pairs of `u` are assigned one by one, left to right. */
  function Update<V>(d: seq<(string, V)>, u: seq<(string, V)>): (r: seq<(string, V)>)
    ensures forall k :: k in Keys(r) <==> k in Keys(d) || k in Keys(u)
    ensures |d| <= |r| && Keys(r)[..|d|] == Keys(d)
    ensures Distinct(u) ==> forall k :: k in Keys(u) ==> Get(r, k) == Get(u, k)
    ensures forall k :: k !in Keys(u) ==> Get(r, k) == Get(d, k)
    decreases |u|
  {
    if u == [] then d
    else
      var d1 := Set(d, u[0].0, u[0].1);
      var r := Update(d1, u[1..]);
      UpdateStepKeys(d, u, d1, r);
      UpdateStepOrder(d, u[0].0, u[0].1, d1, r);
      UpdateStepValues(d, u, d1, r);
      r
  }

  /** The keys after `d[k] = v` are those of `d` and `k`. */
  lemma SetKeysIn<V>(d: seq<(string, V)>, k: string, v: V, j: string)
    ensures j in Keys(Set(d, k, v)) <==> j in Keys(d) || j == k
  {
    var kd := Keys(d);
    if k !in kd {
      assert kd + [k] == Keys(Set(d, k, v));
      assert j in kd + [k] <==> j in kd || j == k;
    }
  }

  /** `d[k] = v` keeps every key and holds `k`. */
  lemma SetKeysGrow<V>(d: seq<(string, V)>, k: string, v: V)
    ensures k in Keys(Set(d, k, v))
    ensures forall x :: x in Keys(d) ==> x in Keys(Set(d, k, v))
  {
    if k !in Keys(d) {
      assert Keys(Set(d, k, v)) == Keys(d) + [k];
    }
  }

  /** An update keeps the keys distinct. */
  lemma {:induction false} UpdateDistinct<V>(d: seq<(string, V)>, u: seq<(string, V)>)
    ensures Distinct(d) ==> Distinct(Update(d, u))
    decreases |u|
  {
    if u != [] {
      SetDistinct(d, u[0].0, u[0].1);
      UpdateDistinct(Set(d, u[0].0, u[0].1), u[1..]);
    }
  }

  /** One assignment of `Update`, given what the remaining ones achieve:
      the keys. */
  lemma UpdateStepKeys<V>(d: seq<(string, V)>, u: seq<(string, V)>, d1: seq<(string, V)>, r: seq<(string, V)>)
    requires u != [] && d1 == Set(d, u[0].0, u[0].1)
    requires forall k :: k in Keys(r) <==> k in Keys(d1) || k in Keys(u[1..])
    ensures forall k :: k in Keys(r) <==> k in Keys(d) || k in Keys(u)
  {
    forall k ensures k in Keys(r) <==> k in Keys(d) || k in Keys(u) {
      SetKeysIn(d, u[0].0, u[0].1, k);
      KeysInCons(u, k);
    }
  }

  lemma KeysInCons<V>(u: seq<(string, V)>, k: string)
    requires u != []
    ensures k in Keys(u) <==> k == u[0].0 || k in Keys(u[1..])
  {
    KeysCons(u[0], u[1..]);
    assert u == [u[0]] + u[1..];
  }

  /** One assignment of `Update`, given what the remaining ones achieve:
      the values. */
  lemma UpdateStepValues<V>(d: seq<(string, V)>, u: seq<(string, V)>, d1: seq<(string, V)>, r: seq<(string, V)>)
    requires u != [] && d1 == Set(d, u[0].0, u[0].1)
    requires Distinct(u[1..]) ==> forall k :: k in Keys(u[1..]) ==> Get(r, k) == Get(u[1..], k)
    requires forall k :: k !in Keys(u[1..]) ==> Get(r, k) == Get(d1, k)
    ensures Distinct(u) ==> forall k :: k in Keys(u) ==> Get(r, k) == Get(u, k)
    ensures forall k :: k !in Keys(u) ==> Get(r, k) == Get(d, k)
  {
    forall k | k !in Keys(u) ensures Get(r, k) == Get(d, k) {
      KeysInCons(u, k);
    }
    if Distinct(u) {
      DistinctTail(u);
      forall k | k in Keys(u) ensures Get(r, k) == Get(u, k) {
        KeysInCons(u, k);
      }
    }
  }


  lemma UpdateStepOrder<V>(d: seq<(string, V)>, k: string, v: V, d1: seq<(string, V)>, r: seq<(string, V)>)
    requires d1 == Set(d, k, v)
    requires |d1| <= |r| && Keys(r)[..|d1|] == Keys(d1)
    ensures |d| <= |r| && Keys(r)[..|d|] == Keys(d)
  {
    var kd, k1, kr := Keys(d), Keys(d1), Keys(r);
    assert |kd| <= |k1|;
    forall i | 0 <= i < |d| ensures kr[i] == kd[i] {
      assert kr[i] == kr[..|d1|][i] == k1[i];
      assert k1[i] == kd[i];
    }
  }

  lemma DistinctTail<V>(u: seq<(string, V)>)
    requires u != [] && Distinct(u)
    ensures Distinct(u[1..]) && u[0].0 !in Keys(u[1..])
  {
    forall a, b | 0 <= a < b < |u[1..]| ensures u[1..][a].0 != u[1..][b].0 {
      assert u[1..][a] == u[a + 1] && u[1..][b] == u[b + 1];
    }
    forall j | 0 <= j < |u[1..]| ensures u[1..][j].0 != u[0].0 {
      assert u[1..][j] == u[j + 1];
    }
  }

  lemma DistinctCons<V>(e: (string, V), t: seq<(string, V)>)
    requires Distinct(t) && e.0 !in Keys(t)
    ensures Distinct([e] + t)
  {
    var s := [e] + t;
    forall a, b | 0 <= a < b < |s| ensures s[a].0 != s[b].0 {
      assert s[b] == t[b - 1];
      if a > 0 {
        assert s[a] == t[a - 1];
      }
    }
  }
}
