/** The airside RCx generators collect the point names of an AHU's VAVs per
    role in a Python `set`, then write it out as `""` (empty set), the single
    element, or `list(set)`. The order of `list(set)` is Python's hash order,
    so the model keeps only which elements it holds. */
module Collapse {
  import opened Json
  import opened Wrappers

  predicate Distinct<T(==)>(xs: seq<T>) {
    forall i, j :: 0 <= i < j < |xs| ==> xs[i] != xs[j]
  }

  /** `xs` lists each element of `s` once, in some order. */
  predicate ListsExactly(xs: seq<string>, s: set<string>) {
    Distinct(xs) && (forall i :: 0 <= i < |xs| ==> xs[i] in s) && (forall x :: x in s ==> x in xs)
  }

  /** The collapse law: `""` for the empty set, the element for a singleton,
      and a list of exactly the elements, without repeats, for more. */
  predicate CollapsedFrom(v: Json, s: set<string>) {
    (s == {} ==> v == JStr("")) &&
    (|s| == 1 ==> v.JStr? && v.s in s) &&
    (|s| > 1 ==> v.JArr? && |v.items| == |s| && Distinct(v.items) &&
                 (forall i :: 0 <= i < |v.items| ==> v.items[i].JStr? && v.items[i].s in s) &&
                 (forall x :: x in s ==> JStr(x) in v.items))
  }

  /** `list(s)`: every element once, in an order the model leaves open. */
  method SetToList(s: set<string>) returns (xs: seq<string>)
    ensures ListsExactly(xs, s)
    ensures |xs| == |s|
  {
    xs := [];
    var rest := s;
    while rest != {}
      invariant rest <= s
      invariant ListsExactly(xs, s - rest)
      invariant |xs| + |rest| == |s|
      decreases |rest|
    {
      var x :| x in rest;
      assert x !in xs;
      xs := xs + [x];
      rest := rest - {x};
      assert s - rest == (s - (rest + {x})) + {x};
    }
    assert s - rest == s;
  }

  /** Different strings give different JSON strings. */
  lemma {:induction false} StrsDistinct(xs: seq<string>)
    requires Distinct(xs)
    ensures Distinct(StrItems(xs))
  {
  }

  /** The list branch of the collapse. */
  method ListOf(s: set<string>) returns (v: Json)
    requires |s| > 1
    ensures CollapsedFrom(v, s)
  {
    var xs := SetToList(s);
    StrsDistinct(xs);
    v := JArr(StrItems(xs));
    forall x | x in s
      ensures JStr(x) in v.items
    {
      var i :| 0 <= i < |xs| && xs[i] == x;
      assert v.items[i] == JStr(x);
    }
  }

  /** The single element of a singleton set, as `set.pop()` returns it. */
  method Pop(s: set<string>) returns (x: string)
    requires |s| == 1
    ensures s == {x}
  {
    x :| x in s;
    assert |s - {x}| == 0;
  }

  /** The config_generators collapse, and the JSON airside RCx one:
      `""` if the set is empty, `list(set)` if it has more than one element,
      `set.pop()` otherwise. */
  method CollapseSet(s: set<string>) returns (v: Json)
    ensures CollapsedFrom(v, s)
  {
    if s == {} {
      v := JStr("");
    } else if |s| > 1 {
      v := ListOf(s);
    } else {
      var x := Pop(s);
      v := JStr(x);
    }
  }

  /** The database airside RCx collapse: `list(set)` for more than one
      element, otherwise `set.pop()`, which raises `KeyError` on an empty set
      (an AHU with no VAVs). */
  method CollapseOrPop(s: set<string>) returns (r: Result<Json>)
    ensures r.Err? <==> s == {}
    ensures r.Ok? ==> CollapsedFrom(r.value, s)
  {
    if |s| > 1 {
      var v := ListOf(s);
      r := Ok(v);
    } else if s == {} {
      r := Err("KeyError: 'pop from an empty set'");
    } else {
      var x := Pop(s);
      r := Ok(JStr(x));
    }
  }
}
