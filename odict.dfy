/** Python dictionaries with string keys, as the generators build them: a
    sequence of entries in insertion order. Assigning to an existing key keeps
    its place; a new key goes at the end. */
module ODicts {
  import opened Wrappers

  type ODict<V> = seq<(string, V)>

  /** The keys, in insertion order (`list(d)`). */
  function Keys<V>(d: ODict<V>): seq<string>
    decreases |d|
  {
    if d == [] then [] else [d[0].0] + Keys(d[1..])
  }

  predicate UniqueKeys<V>(d: ODict<V>) {
    forall i, j :: 0 <= i < j < |d| ==> d[i].0 != d[j].0
  }

  /** `d.get(k)` */
  function Get<V>(d: ODict<V>, k: string): Option<V>
    decreases |d|
  {
    if d == [] then None else if d[0].0 == k then Some(d[0].1) else Get(d[1..], k)
  }

  /** `d[k] = v` */
  function Put<V>(d: ODict<V>, k: string, v: V): ODict<V>
    decreases |d|
  {
    if d == [] then [(k, v)]
    else if d[0].0 == k then [(k, v)] + d[1..]
    else [d[0]] + Put(d[1..], k, v)
  }

  /** `d[k].append(x)` on a `defaultdict(list)`. */
  function AppendAt(d: ODict<seq<string>>, k: string, x: string): ODict<seq<string>> {
    Put(d, k, (if Get(d, k).Some? then Get(d, k).value else []) + [x])
  }

  lemma {:induction false} KeysLen<V>(d: ODict<V>)
    ensures |Keys(d)| == |d|
    ensures forall i :: 0 <= i < |d| ==> Keys(d)[i] == d[i].0
    decreases |d|
  {
    if d != [] {
      KeysLen(d[1..]);
    }
  }

  /** A key is present exactly when it is one of the keys. */
  lemma {:induction false} GetSome<V>(d: ODict<V>, k: string)
    ensures Get(d, k).Some? <==> k in Keys(d)
    decreases |d|
  {
    if d != [] {
      GetSome(d[1..], k);
    }
  }

  /** After `d[k] = v`, `k` maps to `v` and every other key to what it mapped
      to; the keys are those of `d`, followed by `k` when it is new; and keys
      stay unique. */
  lemma PutSpec<V>(d: ODict<V>, k: string, v: V)
    ensures Get(Put(d, k, v), k) == Some(v)
    ensures forall k2 :: k2 != k ==> Get(Put(d, k, v), k2) == Get(d, k2)
    ensures Keys(Put(d, k, v)) == if k in Keys(d) then Keys(d) else Keys(d) + [k]
    ensures UniqueKeys(d) ==> UniqueKeys(Put(d, k, v))
  {
    PutGet(d, k, v);
    PutKeys(d, k, v);
    if UniqueKeys(d) {
      PutUnique(d, k, v);
    }
  }

  lemma {:induction false} PutGet<V>(d: ODict<V>, k: string, v: V)
    ensures Get(Put(d, k, v), k) == Some(v)
    ensures forall k2 :: k2 != k ==> Get(Put(d, k, v), k2) == Get(d, k2)
    decreases |d|
  {
    if d != [] && d[0].0 != k {
      PutGet(d[1..], k, v);
    }
  }

  lemma {:induction false} PutKeys<V>(d: ODict<V>, k: string, v: V)
    ensures Keys(Put(d, k, v)) == if k in Keys(d) then Keys(d) else Keys(d) + [k]
    decreases |d|
  {
    if d != [] && d[0].0 != k {
      PutKeys(d[1..], k, v);
      assert Put(d, k, v) == [d[0]] + Put(d[1..], k, v);
    } else if d != [] {
      assert Keys(Put(d, k, v)) == Keys(d);
    }
  }

  lemma {:induction false} PutUnique<V>(d: ODict<V>, k: string, v: V)
    requires UniqueKeys(d)
    ensures UniqueKeys(Put(d, k, v))
    decreases |d|
  {
    var p := Put(d, k, v);
    if d != [] && d[0].0 != k {
      assert UniqueKeys(d[1..]);
      PutUnique(d[1..], k, v);
      PutKeys(d[1..], k, v);
      var q := Put(d[1..], k, v);
      assert p == [d[0]] + q;
      KeysLen(d[1..]);
      KeysLen(q);
      forall j | 0 < j < |p|
        ensures p[0].0 != p[j].0
      {
        assert p[j].0 == Keys(q)[j - 1];
        if Keys(q)[j - 1] != k {
          assert Keys(q)[j - 1] in Keys(d[1..]);
          var m :| 0 <= m < |Keys(d[1..])| && Keys(d[1..])[m] == Keys(q)[j - 1];
          assert d[m + 1].0 == Keys(d[1..])[m];
        }
      }
    } else if d != [] {
      assert forall j :: 0 < j < |p| ==> p[j] == d[j];
    }
  }

  /** The keys of two dictionaries written one after the other. */
  lemma {:induction false} KeysAppend<V>(a: ODict<V>, b: ODict<V>)
    ensures Keys(a + b) == Keys(a) + Keys(b)
    decreases |a|
  {
    if a != [] {
      KeysAppend(a[1..], b);
      assert (a + b)[1..] == a[1..] + b;
    } else {
      assert a + b == b;
    }
  }

  /** `for k, v in zip(ks, vs): d[k] = v` */
  function PutAll<V>(d: ODict<V>, ks: seq<string>, vs: seq<V>): ODict<V>
    requires |ks| == |vs|
    decreases |ks|
  {
    if ks == [] then d
    else
      var n := |ks| - 1;
      Put(PutAll(d, ks[..n], vs[..n]), ks[n], vs[n])
  }

  /** Every written key is present; no other key is added; keys stay unique. */
  lemma {:induction false} PutAllKeys<V>(d: ODict<V>, ks: seq<string>, vs: seq<V>)
    requires |ks| == |vs|
    ensures forall k :: k in Keys(PutAll(d, ks, vs)) <==> k in Keys(d) || k in ks
    ensures UniqueKeys(d) ==> UniqueKeys(PutAll(d, ks, vs))
    decreases |ks|
  {
    if ks != [] {
      var n := |ks| - 1;
      PutAllKeys(d, ks[..n], vs[..n]);
      PutSpec(PutAll(d, ks[..n], vs[..n]), ks[n], vs[n]);
      assert ks == ks[..n] + [ks[n]];
    }
  }

  /** The last write to a key wins: its value is the one written at the last
      position that names it. A key never written keeps its value. */
  lemma {:induction false} PutAllLast<V>(d: ODict<V>, ks: seq<string>, vs: seq<V>, i: nat)
    requires |ks| == |vs| && i < |ks|
    requires forall j :: i < j < |ks| ==> ks[j] != ks[i]
    ensures Get(PutAll(d, ks, vs), ks[i]) == Some(vs[i])
    decreases |ks|
  {
    var n := |ks| - 1;
    PutGet(PutAll(d, ks[..n], vs[..n]), ks[n], vs[n]);
    if i < n {
      PutAllLast(d, ks[..n], vs[..n], i);
    }
  }

  lemma {:induction false} PutAllUntouched<V>(d: ODict<V>, ks: seq<string>, vs: seq<V>, k: string)
    requires |ks| == |vs| && k !in ks
    ensures Get(PutAll(d, ks, vs), k) == Get(d, k)
    decreases |ks|
  {
    if ks != [] {
      var n := |ks| - 1;
      PutGet(PutAll(d, ks[..n], vs[..n]), ks[n], vs[n]);
      assert ks[n] in ks;
      assert forall x :: x in ks[..n] ==> x in ks;
      PutAllUntouched(d, ks[..n], vs[..n], k);
    }
  }

  lemma PutAllSnoc<V>(d: ODict<V>, ks: seq<string>, vs: seq<V>, k: string, v: V)
    requires |ks| == |vs|
    ensures PutAll(d, ks + [k], vs + [v]) == Put(PutAll(d, ks, vs), k, v)
  {
    assert (ks + [k])[..|ks|] == ks;
    assert (vs + [v])[..|vs|] == vs;
  }

  /** The same step for the first `i + 1` keys of a longer key list. */
  lemma PutAllStep<V>(d: ODict<V>, ks: seq<string>, vs: seq<V>, i: nat, v: V)
    requires i < |ks| && |vs| == i
    ensures PutAll(d, ks[..i + 1], vs + [v]) == Put(PutAll(d, ks[..i], vs), ks[i], v)
  {
    assert ks[..i + 1] == ks[..i] + [ks[i]];
    PutAllSnoc(d, ks[..i], vs, ks[i], v);
  }

  /** Looking a key up in two dictionaries written one after the other. */
  lemma {:induction false} GetAppend<V>(a: ODict<V>, b: ODict<V>, k: string)
    ensures Get(a + b, k) == if k in Keys(a) then Get(a, k) else Get(b, k)
    decreases |a|
  {
    if a != [] {
      assert (a + b)[1..] == a[1..] + b;
      GetAppend(a[1..], b, k);
    } else {
      assert a + b == b;
    }
  }

  /** A new key goes at the end. */
  lemma {:induction false} PutNew<V>(d: ODict<V>, k: string, v: V)
    requires k !in Keys(d)
    ensures Put(d, k, v) == d + [(k, v)]
    decreases |d|
  {
    if d != [] {
      PutNew(d[1..], k, v);
    }
  }

  /** The number of values held by the lists of a dictionary. */
  function TotalLen(d: ODict<seq<string>>): nat
    decreases |d|
  {
    if d == [] then 0 else |d[0].1| + TotalLen(d[1..])
  }

  /** `d[k].append(x)` adds one value in all. */
  lemma {:induction false} AppendAtTotal(d: ODict<seq<string>>, k: string, x: string)
    ensures TotalLen(AppendAt(d, k, x)) == TotalLen(d) + 1
  {
    PutTotal(d, k, (if Get(d, k).Some? then Get(d, k).value else []) + [x]);
  }

  lemma {:induction false} PutTotal(d: ODict<seq<string>>, k: string, v: seq<string>)
    ensures TotalLen(Put(d, k, v)) + (if Get(d, k).Some? then |Get(d, k).value| else 0) == TotalLen(d) + |v|
    decreases |d|
  {
    if d != [] && d[0].0 != k {
      PutTotal(d[1..], k, v);
    }
  }
}
