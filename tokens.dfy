/** ILC token substitution: volttron point names inside condition and
    criteria strings are replaced by the site's point names, one token after
    another with `str.replace`, in the order `list.sort(key=len)` leaves them:
    shortest first. */
module Tokens {
  import opened Strs
  import opened Json
  import opened Wrappers

  predicate AllMapped(points: seq<string>, mapping: map<string, string>) {
    forall i :: 0 <= i < |points| ==> points[i] in mapping
  }

  /** `for point in points: s = s.replace(point, mapping[point])` */
  function ApplyTokens(s: string, points: seq<string>, mapping: map<string, string>): string
    requires AllMapped(points, mapping)
    decreases points
  {
    if points == [] then s
    else ApplyTokens(Replace(s, points[0], mapping[points[0]]), points[1..], mapping)
  }

  /** The replacements run in list order: the last token is replaced last. */
  lemma {:induction false} ApplyTokensSnoc(s: string, points: seq<string>, p: string, mapping: map<string, string>)
    requires AllMapped(points, mapping) && p in mapping
    ensures AllMapped(points + [p], mapping)
    ensures ApplyTokens(s, points + [p], mapping) == Replace(ApplyTokens(s, points, mapping), p, mapping[p])
    decreases points
  {
    if points != [] {
      assert (points + [p])[1..] == points[1..] + [p];
      ApplyTokensSnoc(Replace(s, points[0], mapping[points[0]]), points[1..], p, mapping);
    }
  }

  /** A string that contains none of the tokens comes back unchanged. */
  lemma {:induction false} ApplyTokensNoToken(s: string, points: seq<string>, mapping: map<string, string>)
    requires AllMapped(points, mapping)
    requires forall i :: 0 <= i < |points| ==> !Contains(s, points[i])
    ensures ApplyTokens(s, points, mapping) == s
  {
    if points != [] {
      assert points[0] != [] by {
        assert IsPrefix([], s);
        assert Contains(s, []);
      }
      ReplaceAbsent(s, points[0], mapping[points[0]]);
      ApplyTokensNoToken(s, points[1..], mapping);
    }
  }

  /** Mapping every token to itself changes nothing. */
  lemma {:induction false} ApplyTokensIdentity(s: string, points: seq<string>, mapping: map<string, string>)
    requires AllMapped(points, mapping)
    requires forall i :: 0 <= i < |points| ==> points[i] != [] && mapping[points[i]] == points[i]
    ensures ApplyTokens(s, points, mapping) == s
  {
    if points != [] {
      ReplaceSame(s, points[0]);
      ApplyTokensIdentity(s, points[1..], mapping);
    }
  }

  /** The string branch: `KeyError` on the first token the mapping lacks. */
  function ReplaceInStr(s: string, points: seq<string>, mapping: map<string, string>): Result<string> {
    if AllMapped(points, mapping) then Ok(ApplyTokens(s, points, mapping)) else Err("KeyError")
  }

  /** The list branch, item by item and token by token as Python evaluates
      `search_str.replace(point, point_mapping[point])`: a non-string item
      raises `AttributeError` before the mapping is read, a missing token
      `KeyError`; with no tokens every item is copied as it is. */
  function ReplaceInList(items: seq<Json>, points: seq<string>, mapping: map<string, string>): Result<seq<Json>> {
    if items == [] then Ok([])
    else if points != [] && !items[0].JStr? then Err("AttributeError")
    else if points != [] && !AllMapped(points, mapping) then Err("KeyError")
    else
      var head := if points == [] then items[0] else JStr(ApplyTokens(items[0].s, points, mapping));
      var rest := ReplaceInList(items[1..], points, mapping);
      if rest.Err? then rest else Ok([head] + rest.value)
  }

  /** `replace_point_names` on a decoded JSON value: a `str` or a `list`. */
  function ReplacePointNamesSpec(obj: Json, mapping: map<string, string>, points: seq<string>): Result<Json> {
    match obj
    case JStr(s) =>
      var r := ReplaceInStr(s, points, mapping);
      if r.Err? then Err(r.msg) else Ok(JStr(r.value))
    case JArr(items) =>
      var r := ReplaceInList(items, points, mapping);
      if r.Err? then Err(r.msg) else Ok(JArr(r.value))
    case _ => Err("TypeError")
  }

  /** The list branch succeeds exactly when there is nothing to replace or every
      token is mapped and every item is a string; it then keeps the length and
      rewrites each item on its own (with no tokens, the list comes back as is). */
  lemma {:induction false} ReplaceInListSpec(items: seq<Json>, points: seq<string>, mapping: map<string, string>)
    ensures ReplaceInList(items, points, mapping).Ok? <==>
      (items == [] || points == [] ||
       (AllMapped(points, mapping) && forall i :: 0 <= i < |items| ==> items[i].JStr?))
    ensures ReplaceInList(items, points, mapping).Ok? ==>
      |ReplaceInList(items, points, mapping).value| == |items|
    ensures points == [] ==> ReplaceInList(items, points, mapping) == Ok(items)
    ensures ReplaceInList(items, points, mapping).Ok? && points != [] ==>
      forall i :: 0 <= i < |items| ==>
        ReplaceInList(items, points, mapping).value[i] == JStr(ApplyTokens(items[i].s, points, mapping))
    decreases |items|
  {
    if items != [] {
      ReplaceInListSpec(items[1..], points, mapping);
      var r := ReplaceInList(items, points, mapping);
      if points == [] {
        assert items == [items[0]] + items[1..];
      } else if items[0].JStr? && AllMapped(points, mapping) {
        if (forall i :: 0 <= i < |items| ==> items[i].JStr?) {
          assert forall i :: 0 <= i < |items[1..]| ==> items[1..][i].JStr? by {
            forall i | 0 <= i < |items[1..]| ensures items[1..][i].JStr? {
              assert items[1..][i] == items[i + 1];
            }
          }
          assert r.Ok?;
          forall i | 0 <= i < |items|
            ensures r.value[i] == JStr(ApplyTokens(items[i].s, points, mapping))
          {
            if i > 0 {
              assert items[1..][i - 1] == items[i];
            }
          }
        } else {
          var i :| 0 <= i < |items| && !items[i].JStr?;
          assert items[1..][i - 1] == items[i];
        }
      }
    }
  }

  /** `replace_point_names`: the string branch rewrites the string, the list
      branch builds `new_list` item by item. */
  method ReplacePointNames(obj: Json, mapping: map<string, string>, points: seq<string>) returns (r: Result<Json>)
    ensures r == ReplacePointNamesSpec(obj, mapping, points)
  {
    if obj.JStr? {
      var s := ReplaceAll(obj.s, mapping, points);
      r := if s.Err? then Err(s.msg) else Ok(JStr(s.value));
    } else if obj.JArr? {
      var l := ReplaceItems(obj.items, mapping, points);
      r := if l.Err? then Err(l.msg) else Ok(JArr(l.value));
    } else {
      r := Err("TypeError");
    }
  }

  /** `for point in points: s = s.replace(point, point_mapping[point])`,
      stopping with `KeyError` at the first token the mapping lacks. */
  method ReplaceAll(s0: string, mapping: map<string, string>, points: seq<string>) returns (r: Result<string>)
    ensures r == ReplaceInStr(s0, points, mapping)
  {
    var s := s0;
    var k := 0;
    while k < |points|
      invariant 0 <= k <= |points|
      invariant AllMapped(points[..k], mapping)
      invariant ApplyTokens(s0, points[..k], mapping) == s
    {
      if points[k] !in mapping {
        assert !AllMapped(points, mapping);
        return Err("KeyError");
      }
      ApplyTokensSnoc(s0, points[..k], points[k], mapping);
      assert points[..k + 1] == points[..k] + [points[k]];
      s := Replace(s, points[k], mapping[points[k]]);
      k := k + 1;
    }
    assert points[..k] == points;
    return Ok(s);
  }

  /** The list branch: each item is rewritten by the same token loop, after
      the check that it is a string. */
  method ReplaceItems(items: seq<Json>, mapping: map<string, string>, points: seq<string>)
    returns (r: Result<seq<Json>>)
    ensures r == ReplaceInList(items, points, mapping)
  {
    var newList: seq<Json> := [];
    var n := 0;
    assert items[0..] == items;
    assert Prefixed([], ReplaceInList(items, points, mapping)) == ReplaceInList(items, points, mapping) by {
      assert ReplaceInList(items, points, mapping).Ok? ==> [] + ReplaceInList(items, points, mapping).value == ReplaceInList(items, points, mapping).value;
    }
    while n < |items|
      invariant 0 <= n <= |items|
      invariant ReplaceInList(items, points, mapping) == Prefixed(newList, ReplaceInList(items[n..], points, mapping))
    {
      assert items[n..][0] == items[n] && items[n..][1..] == items[n + 1..];
      var item := items[n];
      if points != [] {
        if !item.JStr? {
          return Err("AttributeError");
        }
        var s := ReplaceAll(item.s, mapping, points);
        if s.Err? {
          return Err(s.msg);
        }
        item := JStr(s.value);
      }
      assert ReplaceInList(items[n..], points, mapping) == Prefixed([item], ReplaceInList(items[n + 1..], points, mapping));
      PrefixedTwice(newList, [item], ReplaceInList(items[n + 1..], points, mapping));
      newList := newList + [item];
      n := n + 1;
    }
    assert items[n..] == [];
    assert newList + [] == newList;
    return Ok(newList);
  }

  /** The items already rewritten, in front of the outcome for the rest. */
  function Prefixed(pre: seq<Json>, rest: Result<seq<Json>>): Result<seq<Json>> {
    if rest.Err? then rest else Ok(pre + rest.value)
  }

  lemma {:induction false} PrefixedTwice(a: seq<Json>, b: seq<Json>, rest: Result<seq<Json>>)
    ensures Prefixed(a, Prefixed(b, rest)) == Prefixed(a + b, rest)
  {
    if rest.Ok? {
      assert a + (b + rest.value) == (a + b) + rest.value;
    }
  }

  /** Inserting `x` into a list sorted by length, after every element that is
      not longer than `x`. */
  function InsertByLen(ys: seq<string>, x: string): seq<string> {
    if ys == [] then [x]
    else if |x| < |ys[0]| then [x] + ys
    else [ys[0]] + InsertByLen(ys[1..], x)
  }

  /** `list.sort(key=len)`: a stable sort by length. */
  function SortByLen(xs: seq<string>): seq<string> {
    if xs == [] then []
    else InsertByLen(SortByLen(xs[..|xs| - 1]), xs[|xs| - 1])
  }

  predicate SortedByLen(xs: seq<string>) {
    forall i, j :: 0 <= i < j < |xs| ==> |xs[i]| <= |xs[j]|
  }

  /** The elements of length `n`, in order. */
  function OfLen(xs: seq<string>, n: nat): seq<string> {
    if xs == [] then []
    else (if |xs[0]| == n then [xs[0]] else []) + OfLen(xs[1..], n)
  }

  lemma {:induction false} OfLenAppend(a: seq<string>, b: seq<string>, n: nat)
    ensures OfLen(a + b, n) == OfLen(a, n) + OfLen(b, n)
  {
    if a != [] {
      var h := if |a[0]| == n then [a[0]] else [];
      assert (a + b)[0] == a[0];
      assert (a + b)[1..] == a[1..] + b;
      assert OfLen(a + b, n) == h + OfLen(a[1..] + b, n);
      assert OfLen(a, n) == h + OfLen(a[1..], n);
      OfLenAppend(a[1..], b, n);
    } else {
      assert a + b == b;
    }
  }

  /** The head of an insertion is the old head or the inserted element. */
  lemma {:induction false} InsertByLenHead(ys: seq<string>, x: string)
    ensures |InsertByLen(ys, x)| == |ys| + 1
    ensures InsertByLen(ys, x)[0] == x || (ys != [] && InsertByLen(ys, x)[0] == ys[0])
    decreases ys
  {
    if ys != [] && |x| >= |ys[0]| {
      InsertByLenHead(ys[1..], x);
    }
  }

  lemma {:induction false} InsertByLenSorted(ys: seq<string>, x: string)
    requires SortedByLen(ys)
    ensures SortedByLen(InsertByLen(ys, x))
    decreases ys
  {
    if ys != [] && |x| >= |ys[0]| {
      var t := InsertByLen(ys[1..], x);
      InsertByLenSorted(ys[1..], x);
      InsertByLenHead(ys[1..], x);
      var r := [ys[0]] + t;
      assert |ys[0]| <= |t[0]| by {
        if |ys| > 1 {
          assert ys[1..][0] == ys[1];
        }
      }
      forall i, j | 0 <= i < j < |r|
        ensures |r[i]| <= |r[j]|
      {
        if i == 0 {
          assert r[j] == t[j - 1];
        } else {
          assert r[i] == t[i - 1] && r[j] == t[j - 1];
        }
      }
    }
  }

  lemma {:induction false} InsertByLenPerm(ys: seq<string>, x: string)
    ensures multiset(InsertByLen(ys, x)) == multiset(ys) + multiset{x}
    decreases ys
  {
    if ys != [] && |x| >= |ys[0]| {
      InsertByLenPerm(ys[1..], x);
      assert ys == [ys[0]] + ys[1..];
    }
  }

  lemma {:induction false} InsertByLenStable(ys: seq<string>, x: string, n: nat)
    requires SortedByLen(ys)
    ensures OfLen(InsertByLen(ys, x), n) == OfLen(ys + [x], n)
    decreases ys
  {
    if ys == [] {
    } else if |x| < |ys[0]| {
      OfLenAppend([x], ys, n);
      OfLenAppend(ys, [x], n);
      if |x| == n {
        OfLenNone(ys, n);
      }
    } else {
      assert SortedByLen(ys[1..]) by {
        forall i, j | 0 <= i < j < |ys[1..]| ensures |ys[1..][i]| <= |ys[1..][j]| {
          assert ys[1..][i] == ys[i + 1] && ys[1..][j] == ys[j + 1];
        }
      }
      InsertByLenStable(ys[1..], x, n);
      OfLenAppend([ys[0]], InsertByLen(ys[1..], x), n);
      assert ys + [x] == [ys[0]] + (ys[1..] + [x]);
      OfLenAppend([ys[0]], ys[1..] + [x], n);
    }
  }

  lemma {:induction false} OfLenNone(ys: seq<string>, n: nat)
    requires forall i :: 0 <= i < |ys| ==> |ys[i]| != n
    ensures OfLen(ys, n) == []
    decreases ys
  {
    if ys != [] {
      assert forall i :: 0 <= i < |ys[1..]| ==> ys[1..][i] == ys[i + 1];
      OfLenNone(ys[1..], n);
    }
  }

  /** `sort(key=len)` leaves the list ordered by non-decreasing length, with
      the same elements, and tokens of equal length in their original order. */
  lemma {:induction false} SortByLenSpec(xs: seq<string>)
    ensures SortedByLen(SortByLen(xs))
    ensures multiset(SortByLen(xs)) == multiset(xs)
    ensures forall n: nat :: OfLen(SortByLen(xs), n) == OfLen(xs, n)
  {
    if xs != [] {
      var init := xs[..|xs| - 1];
      var x := xs[|xs| - 1];
      assert xs == init + [x];
      SortByLenSpec(init);
      InsertByLenSorted(SortByLen(init), x);
      InsertByLenPerm(SortByLen(init), x);
      forall n: nat
        ensures OfLen(SortByLen(xs), n) == OfLen(xs, n)
      {
        InsertByLenStable(SortByLen(init), x, n);
        OfLenAppend(SortByLen(init), [x], n);
        OfLenAppend(init, [x], n);
      }
    }
  }

  /** The generators' claim that sorting by length puts `ZoneAirFlowSetpoint`
      before `ZoneAirFlow` is the wrong way round: the shorter token goes first,
      and where it is a prefix of the longer one it rewrites the start of every
      occurrence of the longer one, which is then never found. */
  lemma {:induction false} ShortestFirstShadows(a: string, b: string, mapping: map<string, string>)
    requires a != [] && |a| < |b| && IsPrefix(a, b)
    requires a in mapping && b in mapping
    requires !Contains(b[|a|..], a)
    requires !Contains(mapping[a] + b[|a|..], b)
    ensures SortByLen([b, a]) == [a, b]
    ensures ApplyTokens(b, SortByLen([b, a]), mapping) == mapping[a] + b[|a|..]
  {
    assert [b, a][..1] == [b];
    assert SortByLen([b]) == [b] by {
      assert [b][..0] == [];
    }
    var tokens := [a, b];
    assert AllMapped(tokens, mapping);
    ReplaceAbsent(b[|a|..], a, mapping[a]);
    assert Replace(b, a, mapping[a]) == mapping[a] + b[|a|..];
    assert tokens[1..] == [b];
    assert ApplyTokens(b, tokens, mapping) == ApplyTokens(mapping[a] + b[|a|..], [b], mapping);
    ReplaceAbsent(mapping[a] + b[|a|..], b, mapping[b]);
    assert [b][1..] == [];
  }

  /** The src criteria tokens after `sort(key=len)`. */
  lemma {:induction false} CriteriaTokenOrder()
    ensures SortByLen(["MinimumAirFlow", "MaxAirFlow", "ZoneCoolingTemperatureSetPoint", "ZoneTemperature", "ZoneAirFlow"])
         == ["MaxAirFlow", "ZoneAirFlow", "MinimumAirFlow", "ZoneTemperature", "ZoneCoolingTemperatureSetPoint"]
  {
    var mn, mx, zc, zt, za := "MinimumAirFlow", "MaxAirFlow", "ZoneCoolingTemperatureSetPoint", "ZoneTemperature", "ZoneAirFlow";
    var xs := [mn, mx, zc, zt, za];
    assert |mn| == 14 && |mx| == 10 && |zc| == 30 && |zt| == 15 && |za| == 11;
    assert xs[..1][..0] == [];
    assert SortByLen(xs[..1]) == [mn];
    assert xs[..2][..1] == xs[..1];
    assert SortByLen(xs[..2]) == [mx, mn];
    assert xs[..3][..2] == xs[..2];
    assert InsertByLen([mn], zc) == [mn, zc] by {
      assert [mn][1..] == [];
    }
    assert InsertByLen([mx, mn], zc) == [mx] + InsertByLen([mn], zc) by {
      assert [mx, mn][1..] == [mn];
    }
    assert SortByLen(xs[..3]) == [mx, mn, zc];
    assert xs[..4][..3] == xs[..3];
    assert InsertByLen([mn, zc], zt) == [mn, zt, zc] by {
      assert [mn, zc][1..] == [zc];
    }
    assert InsertByLen([mx, mn, zc], zt) == [mx] + InsertByLen([mn, zc], zt) by {
      assert [mx, mn, zc][1..] == [mn, zc];
    }
    assert SortByLen(xs[..4]) == [mx, mn, zt, zc];
    assert xs[..5][..4] == xs[..4];
    assert InsertByLen([mx, mn, zt, zc], za) == [mx] + InsertByLen([mn, zt, zc], za) by {
      assert [mx, mn, zt, zc][1..] == [mn, zt, zc];
    }
    assert xs[..5] == xs;
  }
}
