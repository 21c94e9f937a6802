/** How the generators derive short names from Haystack ids and point names,
    object names and device ids from point topics, and the building and campus
    from the site id. */
module Names {
  import opened Strs
  import opened Wrappers

  /** The separators of the character class `[\.|:]`: inside a class `|` is a
      literal, so it splits on `.`, `|` and `:`. */
  const PointSeps: set<char> := {'.', '|', ':'}

  /** `get_name_from_id`: `id.split(".")[-1]`. */
  function NameFromId(id: string): string
  {
    LastAfter(id, {'.'})
  }

  /** The name is the suffix after the last `.`, and holds no `.`. */
  lemma NameFromIdShape(id: string)
    ensures var name := NameFromId(id);
      IsSuffix(name, id) && '.' !in name && (|name| == |id| || id[|id| - |name| - 1] == '.')
  {
    LastAfterShape(id, {'.'});
  }

  /** `get_name_from_id` is the last piece of `id.split(".")`. */
  lemma NameFromIdIsLastSplit(id: string)
    ensures NameFromId(id) == Last(Split(id, '.'))
  {
    LastAfterIsLastSplit(id, '.');
  }

  /** `topic.split("/")[-1]`: the point name used by the airside RCx JSON
      generator of the config_generators tree. */
  function LastSegment(topic: string): string
  {
    LastAfter(topic, {'/'})
  }

  /** The segment is the suffix after the last `/`, and holds no `/`. */
  lemma LastSegmentShape(topic: string)
    ensures var seg := LastSegment(topic);
      IsSuffix(seg, topic) && '/' !in seg && (|seg| == |topic| || topic[|topic| - |seg| - 1] == '/')
  {
    LastAfterShape(topic, {'/'});
  }

  /** `get_point_name_from_topic`: the last `/` segment, then the last piece of
      `re.split(r"[\.|:]", segment)`. */
  function PointNameFromTopic(topic: string): (name: string)
  {
    LastAfter(LastSegment(topic), PointSeps)
  }

  /** The separators a point name can never contain. */
  const TopicSeps: set<char> := {'/', '.', '|', ':'}

  /** The point name is a suffix of the topic that holds none of `/ . | :`,
      and it is the longest such suffix: it is the whole topic, or the
      character before it is one of them. An empty topic gives an empty name. */
  lemma {:induction false} PointNameFromTopicSpec(topic: string)
    ensures IsSuffix(PointNameFromTopic(topic), topic)
    ensures forall i :: 0 <= i < |PointNameFromTopic(topic)| ==>
      PointNameFromTopic(topic)[i] !in TopicSeps
    ensures var n := PointNameFromTopic(topic);
      |n| == |topic| || topic[|topic| - |n| - 1] in TopicSeps
    ensures topic == "" ==> PointNameFromTopic(topic) == ""
  {
    PointNameIsLastAfter(topic);
    LastAfterShape(topic, TopicSeps);
  }

  /** The point name is the last piece for all four separators at once. */
  lemma {:induction false} PointNameIsLastAfter(topic: string)
    ensures PointNameFromTopic(topic) == LastAfter(topic, TopicSeps)
  {
    LastAfterTwice(topic, {'/'}, PointSeps);
    assert {'/'} + PointSeps == TopicSeps;
  }

  /** Any suffix of the topic of that shape is the point name. */
  lemma {:induction false} PointNameFromTopicUnique(topic: string, n: string)
    requires IsSuffix(n, topic)
    requires forall i :: 0 <= i < |n| ==> n[i] !in TopicSeps
    requires |n| == |topic| || topic[|topic| - |n| - 1] in TopicSeps
    ensures n == PointNameFromTopic(topic)
  {
    PointNameIsLastAfter(topic);
    LastAfterUnique(topic, TopicSeps, n);
  }

  /** `topic.split("/")[index]`, or `None` for the `IndexError`. */
  function SegmentAt(topic: string, index: nat): (r: Option<string>)
    ensures r.Some? <==> index < |Split(topic, '/')|
    ensures r.Some? ==> '/' !in r.value
  {
    var parts := Split(topic, '/');
    if index < |parts| then Some(parts[index]) else None
  }

  predicate IsDigit(c: char) { '0' <= c <= '9' }

  /** The end of the run of digits that starts at `k`. */
  function DigitsEnd(s: string, k: nat): (e: nat)
    requires k <= |s|
    ensures k <= e <= |s|
    decreases |s| - k
  {
    if k < |s| && IsDigit(s[k]) then DigitsEnd(s, k + 1) else k
  }

  /** Everything from `k` up to the end is a digit, and the run stops at the
      end of the text or at a non-digit. */
  lemma {:induction false} DigitsEndShape(s: string, k: nat)
    requires k <= |s|
    ensures forall j :: k <= j < DigitsEnd(s, k) ==> IsDigit(s[j])
    ensures DigitsEnd(s, k) == |s| || !IsDigit(s[DigitsEnd(s, k)])
    decreases |s| - k
  {
    if k < |s| && IsDigit(s[k]) {
      DigitsEndShape(s, k + 1);
    }
  }

  /** `\[\d+\]` matches at position `i`. */
  predicate BracketAt(s: string, i: nat) {
    i < |s| && s[i] == '[' &&
    var e := DigitsEnd(s, i + 1);
    e > i + 1 && e < |s| && s[e] == ']'
  }

  /** The regular-expression reading of a match at `i`: a `[`, one or more
      digits, a `]`. Greedy `\d+` cannot need to give digits back, since a
      digit is never `]`, so this agrees with `BracketAt`. */
  lemma BracketAtIsRegexMatch(s: string, i: nat)
    ensures BracketAt(s, i) <==>
      (exists j :: i + 1 < j < |s| && s[i] == '[' && s[j] == ']' &&
        forall k :: i < k < j ==> IsDigit(s[k]))
  {
    if i < |s| && s[i] == '[' {
      var e := DigitsEnd(s, i + 1);
      DigitsEndShape(s, i + 1);
      if BracketAt(s, i) {
        assert i + 1 < e < |s| && s[i] == '[' && s[e] == ']' &&
          forall k :: i < k < e ==> IsDigit(s[k]);
      }
      if exists j :: i + 1 < j < |s| && s[i] == '[' && s[j] == ']' &&
          forall k :: i < k < j ==> IsDigit(s[k]) {
        var j :| i + 1 < j < |s| && s[i] == '[' && s[j] == ']' &&
          forall k :: i < k < j ==> IsDigit(s[k]);
        DigitsEndAt(s, i + 1, j);
      }
    }
  }

  /** A run of digits from `k` up to a non-digit at `j` ends at `j`. */
  lemma {:induction false} DigitsEndAt(s: string, k: nat, j: nat)
    requires k <= j < |s|
    requires forall m :: k <= m < j ==> IsDigit(s[m])
    requires !IsDigit(s[j])
    ensures DigitsEnd(s, k) == j
    decreases j - k
  {
    if k < j {
      DigitsEndAt(s, k + 1, j);
    }
  }

  /** `re.search(r"\[\d+\]", s)`: the leftmost match, as the position of its
      `[` and the position just after its `]`. */
  function FindBracket(s: string, from: nat): (r: Option<(nat, nat)>)
    requires from <= |s|
    ensures r.Some? ==> from <= r.value.0 && r.value.0 + 3 <= r.value.1 <= |s|
    decreases |s| - from
  {
    if from == |s| then None
    else if BracketAt(s, from) then Some((from, DigitsEnd(s, from + 1) + 1))
    else FindBracket(s, from + 1)
  }

  /** No match from `from` on, or the leftmost one. */
  lemma {:induction false} FindBracketSpec(s: string, from: nat)
    requires from <= |s|
    ensures var r := FindBracket(s, from);
      (r.None? ==> forall i :: from <= i < |s| ==> !BracketAt(s, i)) &&
      (r.Some? ==>
        BracketAt(s, r.value.0) && r.value.1 == DigitsEnd(s, r.value.0 + 1) + 1 &&
        forall i :: from <= i < r.value.0 ==> !BracketAt(s, i))
    decreases |s| - from
  {
    if from < |s| && !BracketAt(s, from) {
      FindBracketSpec(s, from + 1);
    }
  }

  /** The `ValueError` message of the config_generators driver generator. */
  function AhuObjectNameError(topic: string): string {
    "Unable to get ahu object name from " + topic +
    " using pattern re.compile('\\\\[\\\\d+\\\\]')"
  }

  /** `get_object_name_from_topic`: without `attr_prop_object_name` in the
      query template the object name is empty; for an AHU it is the first
      `[digits]` of the last `/` segment with its brackets turned into
      parentheses (a `ValueError` when there is none); for any other
      equipment it is the last segment up to its first `:`. */
  function ObjectNameFromTopic(topic: string, equipType: string, query: string): (r: Result<string>)
  {
    if !Contains(query, "attr_prop_object_name") then Ok("")
    else if equipType == "ahu" then
      var part := LastSegment(topic);
      match FindBracket(part, 0)
      case None => Err(AhuObjectNameError(topic))
      // `m.group(0).replace("[", "(").replace("]", ")")`, which
      // `BracketMatchName` shows is the digits between parentheses.
      case Some((b, e)) => Ok("(" + part[b + 1..e - 1] + ")")
    else Ok(FirstBefore(LastSegment(topic), ':'))
  }

  /** Without `attr_prop_object_name` in the query there is no object name. */
  lemma ObjectNameWithoutAttr(topic: string, equipType: string, query: string)
    requires !Contains(query, "attr_prop_object_name")
    ensures ObjectNameFromTopic(topic, equipType, query) == Ok("")
  {
  }

  /** An AHU's object name is an error exactly when the last segment has no
      `[digits]`. */
  lemma ObjectNameOfAhuFails(topic: string, query: string)
    requires Contains(query, "attr_prop_object_name")
    ensures var part := LastSegment(topic);
      (forall i :: 0 <= i < |part| ==> !BracketAt(part, i)) <==> ObjectNameFromTopic(topic, "ahu", query).Err?
  {
    var part := LastSegment(topic);
    FindBracketSpec(part, 0);
  }

  /** Otherwise it is the digits of the leftmost match `FindBracket` returns,
      between parentheses: by `BracketMatchName`, the match with its brackets
      replaced. */
  lemma ObjectNameOfAhu(topic: string, query: string)
    requires Contains(query, "attr_prop_object_name")
    ensures var part := LastSegment(topic);
      var n := ObjectNameFromTopic(topic, "ahu", query);
      var f := FindBracket(part, 0);
      n.Ok? ==> f.Some? && n.value == "(" + part[f.value.0 + 1..f.value.1 - 1] + ")"
  {
    var part := LastSegment(topic);
    var f := FindBracket(part, 0);
    if f.Some? {
      var (b, e) := f.value;
      assert ObjectNameFromTopic(topic, "ahu", query) == Ok("(" + part[b + 1..e - 1] + ")");
    } else {
      assert ObjectNameFromTopic(topic, "ahu", query) == Err(AhuObjectNameError(topic));
    }
  }

  /** The match `[digits]` from `b` to `e`, with its brackets turned into
      parentheses. */
  lemma BracketMatchName(part: string, b: nat, e: nat)
    requires BracketAt(part, b) && e == DigitsEnd(part, b + 1) + 1
    ensures Replace(Replace(part[b..e], "[", "("), "]", ")") == "(" + part[b + 1..e - 1] + ")"
  {
    var d := part[b + 1..e - 1];
    DigitsEndShape(part, b + 1);
    assert part[b..e] == [part[b]] + d + [part[e - 1]];
    BracketsToParens(d);
  }

  /** Any other equipment's object name is the prefix of the last segment up
      to its first `:`, or all of it. */
  lemma ObjectNameOfOther(topic: string, equipType: string, query: string)
    requires Contains(query, "attr_prop_object_name") && equipType != "ahu"
    ensures var n := ObjectNameFromTopic(topic, equipType, query);
      var part := LastSegment(topic);
      n.Ok? && IsPrefix(n.value, part) && ':' !in n.value &&
      (|n.value| == |part| || part[|n.value|] == ':')
  {
    FirstBeforeShape(LastSegment(topic), ':');
  }

  /** The object name fails only for an AHU. */
  lemma ObjectNameFromTopicSpec(topic: string, equipType: string, query: string)
    ensures ObjectNameFromTopic(topic, equipType, query).Err? <==>
      Contains(query, "attr_prop_object_name") && equipType == "ahu" &&
      var part := LastSegment(topic); forall i :: 0 <= i < |part| ==> !BracketAt(part, i)
  {
    if Contains(query, "attr_prop_object_name") {
      if equipType == "ahu" {
        ObjectNameOfAhuFails(topic, query);
      } else {
        ObjectNameOfOther(topic, equipType, query);
      }
    }
  }

  /** Turning the brackets of `[digits]` into parentheses gives `(digits)`. */
  lemma {:induction false} BracketsToParens(d: string)
    requires forall i :: 0 <= i < |d| ==> IsDigit(d[i])
    ensures Replace(Replace("[" + d + "]", "[", "("), "]", ")") == "(" + d + ")"
  {
    OpenBracket(d);
    CloseBracket(d);
  }

  lemma {:induction false} OpenBracket(d: string)
    requires forall i :: 0 <= i < |d| ==> IsDigit(d[i])
    ensures Replace("[" + d + "]", "[", "(") == "(" + d + "]"
  {
    var s := "[" + d + "]";
    assert IsPrefix("[", s);
    assert s[1..] == d + "]";
    assert '[' !in d + "]" by {
      forall i | 0 <= i < |d + "]"|
        ensures (d + "]")[i] != '['
      {
        if i < |d| {
          assert (d + "]")[i] == d[i];
        }
      }
    }
    ReplaceCharAbsent(d + "]", '[', "(");
    assert "(" + (d + "]") == "(" + d + "]";
  }

  lemma {:induction false} CloseBracket(d: string)
    requires forall i :: 0 <= i < |d| ==> IsDigit(d[i])
    ensures Replace("(" + d + "]", "]", ")") == "(" + d + ")"
  {
    var t := "(" + d + "]";
    assert !IsPrefix("]", t) by {
      assert t[..1][0] == '(';
    }
    assert t[1..] == d + "]";
    DigitsThenBracket(d);
    assert "(" + (d + ")") == "(" + d + ")";
  }

  /** Replacing a character that does not occur changes nothing. */
  lemma {:induction false} ReplaceCharAbsent(s: string, c: char, rep: string)
    requires c !in s
    ensures Replace(s, [c], rep) == s
  {
    if s != [] {
      assert !IsPrefix([c], s) by {
        assert s[..1][0] == s[0];
        assert s[0] in s;
      }
      assert forall x :: x in s[1..] ==> x in s;
      ReplaceCharAbsent(s[1..], c, rep);
    }
  }

  lemma {:induction false} DigitsThenBracket(d: string)
    requires forall i :: 0 <= i < |d| ==> IsDigit(d[i])
    ensures Replace(d + "]", "]", ")") == d + ")"
  {
    if d == [] {
      assert d + "]" == "]";
      assert IsPrefix("]", "]");
      assert "]"[1..] == [];
    } else {
      assert !IsPrefix("]", d + "]") by {
        assert (d + "]")[..1][0] == d[0];
      }
      assert (d + "]")[1..] == d[1..] + "]";
      DigitsThenBracket(d[1..]);
      assert [d[0]] + (d[1..] + ")") == d + ")";
    }
  }

  /** `str.format(device_id=..., obj_name=...)` on a query template: every
      `{device_id}` and `{obj_name}` is replaced in one left-to-right pass, and
      nothing else changes. */
  function FormatQuery(q: string, deviceId: string, objName: string): (r: string)
    decreases |q|
  {
    if IsPrefix("{device_id}", q) then deviceId + FormatQuery(q[11..], deviceId, objName)
    else if IsPrefix("{obj_name}", q) then objName + FormatQuery(q[10..], deviceId, objName)
    else if q == [] then []
    else [q[0]] + FormatQuery(q[1..], deviceId, objName)
  }

  /** A query without either placeholder is left as it is. */
  lemma {:induction false} FormatQueryNoPlaceholder(q: string, deviceId: string, objName: string)
    requires !Contains(q, "{device_id}") && !Contains(q, "{obj_name}")
    ensures FormatQuery(q, deviceId, objName) == q
  {
    if q != [] {
      FormatQueryNoPlaceholder(q[1..], deviceId, objName);
    }
  }

  /** `site_id.split(".")[-2]`, or `None` for the `IndexError` when the site id
      has no `.`. */
  function SiteCampus(siteId: string): (r: Option<string>)
    ensures r.Some? <==> '.' in siteId
  {
    var parts := Split(siteId, '.');
    JoinSplit(siteId, '.');
    if |parts| >= 2 then Some(parts[|parts| - 2])
    else (SplitNoSep(siteId, '.'); None)
  }

  /** The building and campus of a generator: the configured values, or the
      last and second-to-last `.` pieces of the site id when they are empty and
      a site id is given. The error is the `IndexError` of a dotless site id. */
  function Location(siteId: string, building: string, campus: string): (r: Result<(string, string)>)
    ensures r.Err? <==> campus == "" && siteId != "" && '.' !in siteId
    ensures r.Ok? ==> r.value.0 == (if building == "" && siteId != "" then NameFromId(siteId) else building)
    ensures r.Ok? && (campus != "" || siteId == "") ==> r.value.1 == campus
  {
    var b := if building == "" && siteId != "" then NameFromId(siteId) else building;
    if campus == "" && siteId != "" then
      match SiteCampus(siteId)
      case None => Err("IndexError: list index out of range")
      case Some(c) => Ok((b, c))
    else Ok((b, campus))
  }

  /** When both are derived, `campus.building` is how the site id ends. */
  lemma LocationFromSite(siteId: string)
    requires '.' in siteId
    ensures Location(siteId, "", "").Ok?
    ensures var (b, c) := Location(siteId, "", "").value;
      IsSuffix(c + "." + b, siteId) && '.' !in b && '.' !in c
  {
    var parts := Split(siteId, '.');
    assert SiteCampus(siteId).Some?;
    assert |parts| >= 2;
    JoinSplit(siteId, '.');
    NameFromIdIsLastSplit(siteId);
    JoinLastTwo(parts, '.');
  }

  /** The join of at least two pieces ends with the last two joined. */
  lemma {:induction false} JoinLastTwo(parts: seq<string>, sep: char)
    requires |parts| >= 2
    ensures IsSuffix(parts[|parts| - 2] + [sep] + parts[|parts| - 1], Join(parts, sep))
  {
    if |parts| > 2 {
      JoinLastTwo(parts[1..], sep);
      assert parts[1..][|parts[1..]| - 2] == parts[|parts| - 2];
      assert parts[1..][|parts[1..]| - 1] == parts[|parts| - 1];
      var j := Join(parts[1..], sep);
      assert Join(parts, sep) == (parts[0] + [sep]) + j;
    }
  }
}
