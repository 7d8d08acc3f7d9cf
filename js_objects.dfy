/** Plain JavaScript data as the scaffolder handles it: JSON values whose
    objects are string-keyed maps that remember insertion order, with the
    two operations the manifest rewrite relies on, property assignment
    (`o[k] = v`) and `Object.assign(target, source)`. */
module JsObjects {

  datatype Option<+T> = None | Some(value: T)

  /** The own enumerable string-keyed properties of an object, in
      enumeration order. A JavaScript object never has a key twice, so the
      maps that stand for objects satisfy `Wf`. */
  type Props<V> = seq<(string, V)>

  /** A value produced by JSON.parse. */
  datatype Json =
    | JNull
    | JBool(b: bool)
    | JNumber(n: int)
    | JString(s: string)
    | JArray(items: seq<Json>)
    | JObject(members: Props<Json>)

  /** The keys of `m`, in enumeration order. */
  function Keys<V>(m: Props<V>): (ks: seq<string>)
    ensures |ks| == |m|
    ensures forall i :: 0 <= i < |m| ==> ks[i] == m[i].0
  {
    seq(|m|, i requires 0 <= i < |m| => m[i].0)
  }

  predicate Distinct(ks: seq<string>)
  {
    forall i, j :: 0 <= i < j < |ks| ==> ks[i] != ks[j]
  }

  /** `m` is the property list of some object: no key occurs twice. */
  predicate Wf<V>(m: Props<V>)
  {
    Distinct(Keys(m))
  }

  lemma KeysPrefix<V>(m: Props<V>, n: nat)
    requires n <= |m|
    ensures Keys(m[..n]) == Keys(m)[..n]
  {
  }

  lemma KeysTail<V>(m: Props<V>)
    requires m != []
    ensures Keys(m) == [m[0].0] + Keys(m[1..])
  {
  }

  /** Property read `o[k]`: `None` stands for `undefined`. */
  function Get<V>(m: Props<V>, k: string): (r: Option<V>)
    ensures r.Some? <==> k in Keys(m)
  {
    if m == [] then None
    else
      KeysTail(m);
      if m[0].0 == k then Some(m[0].1) else Get(m[1..], k)
  }

  /** Property write `o[k] = v`: an existing key keeps its position and
      takes the new value; a new key is appended (see `SetKeys`). */
  function Set<V>(m: Props<V>, k: string, v: V): (r: Props<V>)
    ensures Get(r, k) == Some(v)
    ensures forall k' :: k' != k ==> Get(r, k') == Get(m, k')
  {
    if m == [] then [(k, v)]
    else if m[0].0 == k then
      var r := [(k, v)] + m[1..];
      assert r[1..] == m[1..];
      r
    else
      var rest := Set(m[1..], k, v);
      var r := [m[0]] + rest;
      assert r[1..] == rest;
      r
  }

  /** A write keeps the position of an existing key and appends a new one,
      so it never makes a key occur twice. */
  lemma SetKeys<V>(m: Props<V>, k: string, v: V)
    ensures Keys(Set(m, k, v)) == if k in Keys(m) then Keys(m) else Keys(m) + [k]
    ensures Wf(m) ==> Wf(Set(m, k, v))
  {
    SetKeysOrder(m, k, v);
    if Wf(m) && k !in Keys(m) {
      var ks := Keys(m) + [k];
      forall i, j | 0 <= i < j < |ks| ensures ks[i] != ks[j] {
        if j == |ks| - 1 {
          assert ks[i] in Keys(m);
        }
      }
    }
  }

  lemma {:induction false} SetKeysOrder<V>(m: Props<V>, k: string, v: V)
    ensures Keys(Set(m, k, v)) == if k in Keys(m) then Keys(m) else Keys(m) + [k]
    decreases |m|
  {
    if m != [] {
      var r := Set(m, k, v);
      KeysTail(m);
      KeysTail(r);
      if m[0].0 == k {
        assert r[1..] == m[1..];
      } else {
        assert r[1..] == Set(m[1..], k, v);
        SetKeysOrder(m[1..], k, v);
        assert k in Keys(m) <==> k in Keys(m[1..]);
      }
    }
  }

  /** The keys of `ks` that are neither in `known` nor earlier in `ks`, in
      the order they first occur: the keys `Object.assign` appends. */
  function NewKeys(known: seq<string>, ks: seq<string>): (r: seq<string>)
    ensures forall x :: x in r ==> x in ks && x !in known
  {
    if ks == [] then []
    else
      var n := |ks| - 1;
      var p := NewKeys(known, ks[..n]);
      if ks[n] in known + p then p else p + [ks[n]]
  }

  /** The elements of `ks` that are not in `excluded`, in their order. */
  function Outside(ks: seq<string>, excluded: seq<string>): (r: seq<string>)
  {
    if ks == [] then []
    else
      var n := |ks| - 1;
      Outside(ks[..n], excluded) + if ks[n] in excluded then [] else [ks[n]]
  }

  /** `Object.assign(target, source)`: the properties of `source` are
      written onto `target` one by one, in `source`'s order. A key of
      `source` reads as in `source`, any other key as in `target`. */
  function Assign<V>(target: Props<V>, source: Props<V>): (r: Props<V>)
    ensures Wf(source) ==>
      forall k :: Get(r, k) == if k in Keys(source) then Get(source, k) else Get(target, k)
    decreases |source|
  {
    if source == [] then target
    else
      var n := |source| - 1;
      var prefix := Assign(target, source[..n]);
      if Wf(source) then
        assert Wf(source[..n]) by { KeysPrefix(source, n); }
        AssignStepGet(target, source, prefix);
        Set(prefix, source[n].0, source[n].1)
      else
        Set(prefix, source[n].0, source[n].1)
  }

  /** `Object.assign` keeps the target's keys where they are and appends
      the source keys the target lacks, in source order. */
  lemma AssignKeys<V>(target: Props<V>, source: Props<V>)
    ensures Keys(Assign(target, source)) == Keys(target) + NewKeys(Keys(target), Keys(source))
    ensures Wf(target) ==> Wf(Assign(target, source))
  {
    AssignKeysOrder(target, source);
    if Wf(target) {
      AssignWf(target, source);
    }
  }

  lemma {:induction false} AssignKeysOrder<V>(target: Props<V>, source: Props<V>)
    ensures Keys(Assign(target, source)) == Keys(target) + NewKeys(Keys(target), Keys(source))
    decreases |source|
  {
    if source != [] {
      var n := |source| - 1;
      var prefix := Assign(target, source[..n]);
      AssignKeysOrder(target, source[..n]);
      assert Assign(target, source) == Set(prefix, source[n].0, source[n].1);
      SetKeys(prefix, source[n].0, source[n].1);
      NewKeysStep(Keys(target), source);
    } else {
      assert Keys(target) + [] == Keys(target);
    }
  }

  lemma {:induction false} AssignWf<V>(target: Props<V>, source: Props<V>)
    requires Wf(target)
    ensures Wf(Assign(target, source))
    decreases |source|
  {
    if source != [] {
      var n := |source| - 1;
      var prefix := Assign(target, source[..n]);
      AssignWf(target, source[..n]);
      assert Assign(target, source) == Set(prefix, source[n].0, source[n].1);
      SetKeys(prefix, source[n].0, source[n].1);
    }
  }

  /** `NewKeys` over the keys of a property list, unfolded at its last entry. */
  lemma NewKeysStep<V>(known: seq<string>, source: Props<V>)
    requires source != []
    ensures var n := |source| - 1;
      var p := NewKeys(known, Keys(source[..n]));
      NewKeys(known, Keys(source)) == if source[n].0 in known + p then p else p + [source[n].0]
  {
    var n := |source| - 1;
    KeysPrefix(source, n);
    assert Keys(source)[..n] == Keys(source[..n]);
    assert Keys(source)[n] == source[n].0;
  }

  /** One step of `Assign`, for its values. */
  lemma AssignStepGet<V>(target: Props<V>, source: Props<V>, prefix: Props<V>)
    requires source != [] && Wf(source)
    requires forall k ::
      Get(prefix, k) == (if k in Keys(source[..|source| - 1]) then Get(source[..|source| - 1], k) else Get(target, k))
    ensures var n := |source| - 1;
      var r := Set(prefix, source[n].0, source[n].1);
      forall k :: Get(r, k) == if k in Keys(source) then Get(source, k) else Get(target, k)
  {
    var n := |source| - 1;
    var r := Set(prefix, source[n].0, source[n].1);
    assert Keys(source) == Keys(source[..n]) + [source[n].0];
    assert source[n].0 !in Keys(source[..n]) by {
      assert Keys(source[..n]) == Keys(source)[..n];
    }
    GetSnoc(source);
    forall k ensures Get(r, k) == if k in Keys(source) then Get(source, k) else Get(target, k) {
      assert k in Keys(source) <==> k in Keys(source[..n]) || k == source[n].0;
    }
  }

  lemma {:induction false} GetAppend<V>(a: Props<V>, b: Props<V>, k: string)
    ensures Get(a + b, k) == if k in Keys(a) then Get(a, k) else Get(b, k)
    decreases |a|
  {
    if a != [] {
      KeysTail(a);
      assert (a + b)[1..] == a[1..] + b;
      GetAppend(a[1..], b, k);
    } else {
      assert a + b == b;
    }
  }

  /** Reading a list of properties against its last entry. */
  lemma GetSnoc<V>(m: Props<V>)
    requires m != []
    ensures forall k ::
      Get(m, k) == (if k in Keys(m[..|m| - 1]) then Get(m[..|m| - 1], k)
       else if k == m[|m| - 1].0 then Some(m[|m| - 1].1) else None)
  {
    var n := |m| - 1;
    assert m == m[..n] + [m[n]];
    forall k {
      GetAppend(m[..n], [m[n]], k);
    }
  }

  /** In a well-formed map every entry is what reading its key yields. */
  lemma {:induction false} GetAt<V>(m: Props<V>, i: nat)
    requires Wf(m) && i < |m|
    ensures Get(m, m[i].0) == Some(m[i].1)
    decreases i
  {
    if i > 0 {
      var tail := m[1..];
      KeysTail(m);
      assert Keys(m)[0] != Keys(m)[i];
      assert Wf(tail) by {
        assert Keys(tail) == Keys(m)[1..];
      }
      assert tail[i - 1] == m[i];
      GetAt(tail, i - 1);
    }
  }

  /** Two objects with the same keys in the same order and the same
      property values are the same object. */
  lemma Extensionality<V>(a: Props<V>, b: Props<V>)
    requires Wf(a) && Keys(a) == Keys(b)
    requires forall k :: Get(a, k) == Get(b, k)
    ensures a == b
  {
    forall i | 0 <= i < |a|
      ensures a[i] == b[i]
    {
      assert Keys(a)[i] == Keys(b)[i];
      GetAt(a, i);
      GetAt(b, i);
    }
  }

  /** For a source without repeated keys, the appended keys are just the
      source keys that the target did not have, in source order. */
  lemma {:induction false} NewKeysOfDistinct(known: seq<string>, ks: seq<string>)
    requires Distinct(ks)
    ensures NewKeys(known, ks) == Outside(ks, known)
    decreases |ks|
  {
    if ks != [] {
      var n := |ks| - 1;
      NewKeysOfDistinct(known, ks[..n]);
      assert ks[n] !in ks[..n];
      assert ks[n] !in NewKeys(known, ks[..n]);
    }
  }

  lemma {:induction false} OutsideAppend(a: seq<string>, b: seq<string>, excluded: seq<string>)
    ensures Outside(a + b, excluded) == Outside(a, excluded) + Outside(b, excluded)
    decreases |b|
  {
    if b == [] {
      assert a + b == a;
    } else {
      var n := |b| - 1;
      assert (a + b)[..|a| + n] == a + b[..n];
      OutsideAppend(a, b[..n], excluded);
    }
  }

  lemma {:induction false} OutsideAll(ks: seq<string>, excluded: seq<string>)
    requires forall x :: x in ks ==> x in excluded
    ensures Outside(ks, excluded) == []
    decreases |ks|
  {
    if ks != [] {
      OutsideAll(ks[..|ks| - 1], excluded);
    }
  }

  lemma DropExcludedPrefix(pre: seq<string>, rest: seq<string>, excluded: seq<string>)
    requires forall x :: x in pre ==> x in excluded
    ensures Outside(pre + rest, excluded) == Outside(rest, excluded)
  {
    OutsideAppend(pre, rest, excluded);
    OutsideAll(pre, excluded);
    assert [] + Outside(rest, excluded) == Outside(rest, excluded);
  }

  lemma {:induction false} OutsideIdempotent(ks: seq<string>, excluded: seq<string>)
    ensures Outside(Outside(ks, excluded), excluded) == Outside(ks, excluded)
    decreases |ks|
  {
    if ks != [] {
      var n := |ks| - 1;
      var last := if ks[n] in excluded then [] else [ks[n]];
      OutsideAppend(Outside(ks[..n], excluded), last, excluded);
      OutsideIdempotent(ks[..n], excluded);
      if last != [] {
        assert last[..0] == [];
      }
    }
  }

  /** A JavaScript object as a heap cell whose properties methods update
      in place. */
  class PlainObject {
    var props: Props<Json>

    ghost predicate Valid()
      reads this
    {
      Wf(props)
    }

    constructor (init: Props<Json>)
      requires Wf(init)
      ensures Valid() && props == init
    {
      props := init;
    }

    method Read(key: string) returns (v: Option<Json>)
      ensures v == Get(props, key)
    {
      v := Get(props, key);
    }

    method Write(key: string, value: Json)
      requires Valid()
      modifies this
      ensures Valid() && props == Set(old(props), key, value)
    {
      SetKeys(props, key, value);
      props := Set(props, key, value);
    }

    /** `Object.assign(this, source)`. */
    method AssignFrom(source: Props<Json>)
      requires Valid()
      modifies this
      ensures Valid() && props == Assign(old(props), source)
    {
      ghost var start := props;
      var i := 0;
      while i < |source|
        invariant 0 <= i <= |source|
        invariant Valid()
        invariant props == Assign(start, source[..i])
      {
        ghost var done := source[..i + 1];
        assert done[..i] == source[..i] && done[i] == source[i];
        assert Assign(start, done) == Set(Assign(start, source[..i]), source[i].0, source[i].1);
        Write(source[i].0, source[i].1);
        i := i + 1;
      }
      assert source[..i] == source;
    }
  }
}
