/** The src JSON driver generator (`JsonDriverConfigGenerator` with the
    `DriverConfigGenerator` base it extends): it groups the VAV rows of the
    equipment document under their `ahuRef`, loads a device id, object name
    and topic per equipment from the point document once, and fills the
    driver template's query for each AHU and VAV into a dictionary keyed by
    topic. A Python exception is an `Err`; what the object holds after one
    is left open. */
module DriverSrcJson {
  import opened Wrappers
  import opened Strs
  import opened Json
  import opened Names
  import opened Topics
  import opened Drivers
  import opened Rows
  import opened ODicts
  import opened Collapse

  /** The topic prefix of `__init__` (see `Drivers.DriverSetup`), the
      template, and the rows of the two metadata documents. */
  datatype JsonSetup = JsonSetup(prefix: string, template: Json, equipRows: seq<EquipRow>, pointRows: seq<PointRow>)

  predicate ValidSetup(s: JsonSetup) {
    DriverTemplate(s.template)
  }

  /** The fields of the generator the methods update: `vav_list`, `ahu_list`,
      `unmapped_device_details` and the three maps of equipment id to topic
      name, object name and device id. */
  datatype JState = JState(
    vavList: seq<string>,
    ahuList: seq<string>,
    unmapped: Table,
    topics: map<string, string>,
    names: map<string, string>,
    devices: map<string, string>)

  /** What a call returns together with the fields it leaves. */
  datatype Step<T> = Step(value: T, st: JState)

  // ----- get_ahu_and_vavs -----

  /** The `defaultdict` being filled and the fields. */
  datatype Grouped = Grouped(groups: ODict<seq<string>>, st: JState)

  /** The bucket of a VAV row: its truthy `ahuRef`, or `""`. */
  function Bucket(r: EquipRow): string {
    if HasAhuRef(r) then r.ahuRef.value else ""
  }

  /** One row of the loop of `get_ahu_and_vavs`. */
  function GroupStep(g: Grouped, r: EquipRow): Grouped {
    if "vav" in r.tags then
      var unmapped := if HasAhuRef(r) then g.st.unmapped else g.st.unmapped[r.id := NoAhuRefRecord()];
      Grouped(AppendAt(g.groups, Bucket(r), r.id),
              g.st.(vavList := g.st.vavList + [r.id], unmapped := unmapped))
    else if "ahu" in r.tags then
      g.(st := g.st.(ahuList := g.st.ahuList + [r.id]))
    else g
  }

  function GroupRows(g: Grouped, rows: seq<EquipRow>): Grouped
    decreases |rows|
  {
    if rows == [] then g
    else GroupStep(GroupRows(g, rows[..|rows| - 1]), rows[|rows| - 1])
  }

  /** Reference definitions: the ids of the VAV rows, of the VAV rows in one
      bucket, of the VAV rows without a truthy `ahuRef`, and of the rows
      tagged `ahu` but not `vav`, all in row order. */
  function VavIds(rows: seq<EquipRow>): seq<string>
    decreases |rows|
  {
    if rows == [] then []
    else
      var r := rows[|rows| - 1];
      VavIds(rows[..|rows| - 1]) + (if "vav" in r.tags then [r.id] else [])
  }

  function BucketIds(rows: seq<EquipRow>, k: string): seq<string>
    decreases |rows|
  {
    if rows == [] then []
    else
      var r := rows[|rows| - 1];
      BucketIds(rows[..|rows| - 1], k) + (if "vav" in r.tags && Bucket(r) == k then [r.id] else [])
  }

  function OrphanIds(rows: seq<EquipRow>): seq<string>
    decreases |rows|
  {
    if rows == [] then []
    else
      var r := rows[|rows| - 1];
      OrphanIds(rows[..|rows| - 1]) + (if "vav" in r.tags && !HasAhuRef(r) then [r.id] else [])
  }

  function AhuOnlyIds(rows: seq<EquipRow>): seq<string>
    decreases |rows|
  {
    if rows == [] then []
    else
      var r := rows[|rows| - 1];
      AhuOnlyIds(rows[..|rows| - 1]) + (if "vav" !in r.tags && "ahu" in r.tags then [r.id] else [])
  }

  /** The AHUs of `ahu_list` that no VAV names. */
  function MissingAhus(g: Grouped): set<string> {
    (set a | a in g.st.ahuList) - (set k | k in Keys(g.groups))
  }

  /** What `get_ahu_and_vavs` returns: the buckets as the loop left them,
      then each AHU of `ahu_list` that is not a key once with no VAVs, in an
      order the model leaves open. */
  predicate JsonAhuAndVavs(g: Grouped, result: ODict<seq<string>>) {
    |g.groups| <= |result| && result[..|g.groups|] == g.groups &&
    (forall i :: |g.groups| <= i < |result| ==> result[i].1 == []) &&
    ListsExactly(Keys(result[|g.groups|..]), MissingAhus(g))
  }

  /** The lists grow by the VAV ids and by the ids of rows tagged `ahu` and
      not `vav` (a row with both tags is only a VAV); the point maps are
      untouched. */
  lemma {:induction false} GroupRowsLists(g: Grouped, rows: seq<EquipRow>)
    ensures var g2 := GroupRows(g, rows);
      g2.st.vavList == g.st.vavList + VavIds(rows) &&
      g2.st.ahuList == g.st.ahuList + AhuOnlyIds(rows) &&
      g2.st.topics == g.st.topics && g2.st.names == g.st.names && g2.st.devices == g.st.devices
    decreases |rows|
  {
    if rows != [] {
      GroupRowsLists(g, rows[..|rows| - 1]);
    }
  }

  /** Starting from an empty dictionary, each bucket holds, in row order,
      the ids of the VAV rows whose bucket it is, and only non-empty
      buckets are keys. */
  lemma {:induction false} GroupRowsBuckets(g: Grouped, rows: seq<EquipRow>, k: string)
    requires g.groups == []
    ensures Get(GroupRows(g, rows).groups, k) == if BucketIds(rows, k) == [] then None else Some(BucketIds(rows, k))
    decreases |rows|
  {
    if rows != [] {
      var n := |rows| - 1;
      var r := rows[n];
      var prev := GroupRows(g, rows[..n]);
      GroupRowsBuckets(g, rows[..n], k);
      assert GroupRows(g, rows) == GroupStep(prev, r);
      assert BucketIds(rows, k) == BucketIds(rows[..n], k) + (if "vav" in r.tags && Bucket(r) == k then [r.id] else []);
      if "vav" in r.tags {
        var old_ := Get(prev.groups, Bucket(r));
        var v := (if old_.Some? then old_.value else []) + [r.id];
        PutSpec(prev.groups, Bucket(r), v);
        assert GroupRows(g, rows).groups == Put(prev.groups, Bucket(r), v);
        if Bucket(r) == k {
          assert v == BucketIds(rows, k);
          assert Get(GroupRows(g, rows).groups, k) == Some(v);
        } else {
          assert BucketIds(rows, k) == BucketIds(rows[..n], k);
          assert Get(GroupRows(g, rows).groups, k) == Get(prev.groups, k);
        }
      } else {
        assert GroupRows(g, rows).groups == prev.groups;
        assert BucketIds(rows, k) == BucketIds(rows[..n], k);
      }
    }
  }

  /** The buckets hold as many ids as there are VAV rows: with the above,
      every VAV row is in exactly one bucket. */
  lemma {:induction false} GroupRowsCount(g: Grouped, rows: seq<EquipRow>)
    requires g.groups == []
    ensures TotalLen(GroupRows(g, rows).groups) == |VavIds(rows)|
    decreases |rows|
  {
    if rows != [] {
      var n := |rows| - 1;
      GroupRowsCount(g, rows[..n]);
      if "vav" in rows[n].tags {
        AppendAtTotal(GroupRows(g, rows[..n]).groups, Bucket(rows[n]), rows[n].id);
      }
    }
  }

  /** Each VAV without a truthy `ahuRef` gets the "Unable to find ahuRef"
      record; no other record changes. */
  lemma {:induction false} GroupRowsUnmapped(g: Grouped, rows: seq<EquipRow>)
    ensures var t := GroupRows(g, rows).st.unmapped;
      (forall k :: k in OrphanIds(rows) ==> k in t && t[k] == NoAhuRefRecord()) &&
      (forall k :: k !in OrphanIds(rows) ==> (k in t <==> k in g.st.unmapped) && (k in t ==> t[k] == g.st.unmapped[k]))
    decreases |rows|
  {
    if rows != [] {
      GroupRowsUnmapped(g, rows[..|rows| - 1]);
    }
  }

  /** Every id of `ahu_list` is a key of the result, with `[]` when no VAV
      names it. */
  lemma AhuListKeys(g: Grouped, result: ODict<seq<string>>, a: string)
    requires JsonAhuAndVavs(g, result)
    requires a in g.st.ahuList
    ensures a in Keys(result)
    ensures a !in Keys(g.groups) ==> Get(result, a) == Some([])
  {
    var n := |g.groups|;
    var extra := result[n..];
    assert result == g.groups + extra;
    KeysAppend(g.groups, extra);
    GetAppend(g.groups, extra, a);
    if a !in Keys(g.groups) {
      assert a in MissingAhus(g);
      ExtraGet(extra, a);
    }
  }

  lemma {:induction false} ExtraGet(extra: ODict<seq<string>>, a: string)
    requires forall i :: 0 <= i < |extra| ==> extra[i].1 == []
    requires a in Keys(extra)
    ensures Get(extra, a) == Some([])
    decreases |extra|
  {
    if extra[0].0 != a {
      ExtraGet(extra[1..], a);
    }
  }

  // ----- get_nf_device_id_and_name -----

  /** A point row that sets the device id and object name of its equipment:
      one of a VAV, or one of an AHU whose object name parses. */
  predicate SetsDevice(q: string, st: JState, r: PointRow) {
    r.equipRef in st.vavList ||
    (r.equipRef in st.ahuList && ObjectNameFromTopic(r.topic, "ahu", q).Ok?)
  }

  /** A point row the loop gets past: its id has a `.` (for `split(".")[-2]`)
      and, when it sets a device id, its topic has a fifth `/` segment. */
  predicate RowLoads(q: string, st: JState, r: PointRow) {
    '.' in r.id && (SetsDevice(q, st, r) ==> SegmentAt(r.topic, 4).Some?)
  }

  /** One point row of the loading loop. */
  function LoadStep(q: string, st: JState, r: PointRow): Result<JState> {
    var e := r.equipRef;
    if '.' !in r.id then Err(IndexErrorMsg)
    else if e in st.vavList then
      match ObjectNameFromTopic(r.topic, "vav", q)
      case Err(m) => Err(m)
      case Ok(name) =>
        match SegmentAt(r.topic, 4)
        case None => Err(IndexErrorMsg)
        case Some(dev) =>
          var unmapped := if e in st.unmapped then Mark(st.unmapped, e, map["topic_name" := JStr(r.topic)]) else st.unmapped;
          Ok(st.(topics := st.topics[e := r.topic], names := st.names[e := name],
                 devices := st.devices[e := dev], unmapped := unmapped))
    else if e in st.ahuList then
      var st1 := st.(topics := st.topics[e := r.topic]);
      match ObjectNameFromTopic(r.topic, "ahu", q)
      case Err(_) => Ok(st1)
      case Ok(name) =>
        match SegmentAt(r.topic, 4)
        case None => Err(IndexErrorMsg)
        case Some(dev) => Ok(st1.(names := st1.names[e := name], devices := st1.devices[e := dev]))
    else Ok(st)
  }

  /** The loading loop over the point rows. */
  function Load(q: string, st: JState, rows: seq<PointRow>): Result<JState>
    decreases |rows|
  {
    if rows == [] then Ok(st)
    else
      var n := |rows| - 1;
      var p :- Load(q, st, rows[..n]);
      LoadStep(q, p, rows[n])
  }

  lemma LoadStepSpec(q: string, st: JState, r: PointRow)
    ensures LoadStep(q, st, r).Ok? <==> RowLoads(q, st, r)
    ensures LoadStep(q, st, r).Ok? ==> var st2 := LoadStep(q, st, r).value;
      st2.vavList == st.vavList && st2.ahuList == st.ahuList && st2.unmapped.Keys == st.unmapped.Keys
  {
  }

  /** Loading fails exactly when some row does not load; it leaves the lists
      and the set of unmapped ids as they were. */
  lemma {:induction false} LoadOk(q: string, st: JState, rows: seq<PointRow>)
    ensures Load(q, st, rows).Ok? <==> forall i :: 0 <= i < |rows| ==> RowLoads(q, st, rows[i])
    ensures Load(q, st, rows).Ok? ==> var st2 := Load(q, st, rows).value;
      st2.vavList == st.vavList && st2.ahuList == st.ahuList && st2.unmapped.Keys == st.unmapped.Keys
    decreases |rows|
  {
    if rows != [] {
      var n := |rows| - 1;
      LoadOk(q, st, rows[..n]);
      assert forall i :: 0 <= i < n ==> rows[..n][i] == rows[i];
      if Load(q, st, rows[..n]).Ok? {
        LoadStepSpec(q, Load(q, st, rows[..n]).value, rows[n]);
      }
    }
  }

  /** The device id of an equipment is segment 4 of the topic of the last
      row that sets it, and its object name is derived from that topic: a
      later row overwrites an earlier one, and an AHU row whose name does not
      parse is skipped. */
  lemma {:induction false} LoadLastWins(q: string, st: JState, rows: seq<PointRow>, i: nat)
    requires Load(q, st, rows).Ok?
    requires i < |rows| && SetsDevice(q, st, rows[i])
    requires forall j :: i < j < |rows| ==> !(SetsDevice(q, st, rows[j]) && rows[j].equipRef == rows[i].equipRef)
    ensures var st2 := Load(q, st, rows).value; var e := rows[i].equipRef;
      e in st2.devices && Some(st2.devices[e]) == SegmentAt(rows[i].topic, 4) &&
      e in st2.names && Ok(st2.names[e]) == ObjectNameFromTopic(rows[i].topic, if e in st.vavList then "vav" else "ahu", q)
    decreases |rows|
  {
    var n := |rows| - 1;
    var p := Load(q, st, rows[..n]);
    LoadOk(q, st, rows[..n]);
    assert p.Ok?;
    assert Load(q, st, rows) == LoadStep(q, p.value, rows[n]);
    LoadStepDevices(q, p.value, rows[n]);
    var st1 := p.value;
    var e := rows[i].equipRef;
    assert st1.vavList == st.vavList && st1.ahuList == st.ahuList;
    assert forall r :: SetsDevice(q, st1, r) == SetsDevice(q, st, r);
    if i < n {
      assert forall j :: i < j < n ==> rows[..n][j] == rows[j];
      LoadLastWins(q, st, rows[..n], i);
      assert !SetsDevice(q, st1, rows[n]) || rows[n].equipRef != e;
    }
  }

  /** A loaded row that sets a device sets its equipment's device id and
      name from its topic; nothing else changes in the two maps. */
  lemma LoadStepDevices(q: string, st: JState, r: PointRow)
    requires LoadStep(q, st, r).Ok?
    ensures var st2 := LoadStep(q, st, r).value; var e := r.equipRef;
      (SetsDevice(q, st, r) ==>
        e in st2.devices && Some(st2.devices[e]) == SegmentAt(r.topic, 4) &&
        e in st2.names && Ok(st2.names[e]) == ObjectNameFromTopic(r.topic, if e in st.vavList then "vav" else "ahu", q)) &&
      (forall k :: k != e || !SetsDevice(q, st, r) ==>
        MapGet(st2.devices, k) == MapGet(st.devices, k) && MapGet(st2.names, k) == MapGet(st.names, k))
  {
  }

  /** An equipment no row sets keeps what the maps held for it. */
  lemma {:induction false} LoadUntouched(q: string, st: JState, rows: seq<PointRow>, e: string)
    requires Load(q, st, rows).Ok?
    requires forall j :: 0 <= j < |rows| ==> !(SetsDevice(q, st, rows[j]) && rows[j].equipRef == e)
    ensures var st2 := Load(q, st, rows).value;
      MapGet(st2.devices, e) == MapGet(st.devices, e) && MapGet(st2.names, e) == MapGet(st.names, e)
    decreases |rows|
  {
    if rows != [] {
      var n := |rows| - 1;
      var p := Load(q, st, rows[..n]);
      LoadOk(q, st, rows[..n]);
      assert p.Ok?;
      assert Load(q, st, rows) == LoadStep(q, p.value, rows[n]);
      LoadStepDevices(q, p.value, rows[n]);
      assert forall j :: 0 <= j < n ==> rows[..n][j] == rows[j];
      LoadUntouched(q, st, rows[..n], e);
    }
  }

  /** An unmapped VAV's record gets the topic of the last of its rows. */
  lemma {:induction false} LoadEnriches(q: string, st: JState, rows: seq<PointRow>, i: nat)
    requires Load(q, st, rows).Ok?
    requires i < |rows| && rows[i].equipRef in st.vavList && rows[i].equipRef in st.unmapped
    requires forall j :: i < j < |rows| ==> rows[j].equipRef != rows[i].equipRef
    ensures var t := Load(q, st, rows).value.unmapped; var e := rows[i].equipRef;
      e in t && "topic_name" in t[e] && t[e]["topic_name"] == JStr(rows[i].topic)
    decreases |rows|
  {
    var n := |rows| - 1;
    var p := Load(q, st, rows[..n]);
    LoadOk(q, st, rows[..n]);
    assert p.Ok?;
    assert Load(q, st, rows) == LoadStep(q, p.value, rows[n]);
    LoadStepRecords(q, p.value, rows[n]);
    if i < n {
      assert forall j :: i < j < n ==> rows[..n][j] == rows[j];
      LoadEnriches(q, st, rows[..n], i);
    }
  }

  /** A loaded row changes no record but its equipment's, and gives an
      unmapped VAV its topic. */
  lemma LoadStepRecords(q: string, st: JState, r: PointRow)
    requires LoadStep(q, st, r).Ok?
    ensures var t := LoadStep(q, st, r).value.unmapped;
      t.Keys == st.unmapped.Keys &&
      (forall k :: k in t && k != r.equipRef ==> t[k] == st.unmapped[k]) &&
      (r.equipRef in st.vavList && r.equipRef in st.unmapped ==>
        "topic_name" in t[r.equipRef] && t[r.equipRef]["topic_name"] == JStr(r.topic))
  {
    if r.equipRef in st.vavList && r.equipRef in st.unmapped {
      MarkSpec(st.unmapped, r.equipRef, map["topic_name" := JStr(r.topic)]);
    }
  }

  lemma {:induction false} LoadPrefixErr(q: string, st: JState, rows: seq<PointRow>, k: nat)
    requires k <= |rows| && Load(q, st, rows[..k]).Err?
    ensures Load(q, st, rows).Err?
    decreases |rows| - k
  {
    if k < |rows| {
      assert rows[..k + 1][..k] == rows[..k];
      LoadPrefixErr(q, st, rows, k + 1);
    } else {
      assert rows[..k] == rows;
    }
  }

  /** `get_nf_device_id_and_name`: the point rows are loaded when the name map
      is empty, then the device id and object name are looked up. */
  function Lookup(s: JsonSetup, st: JState, e: string): Result<Step<(Option<string>, Option<string>)>>
    requires ValidSetup(s)
  {
    var st1 :- if st.names == map[] then Load(QueryOf(s.template), st, s.pointRows) else Ok(st);
    Ok(Step((MapGet(st1.devices, e), MapGet(st1.names, e)), st1))
  }

  /** An equipment no point row sets gives `(None, None)`. */
  lemma LookupUnknown(s: JsonSetup, st: JState, e: string)
    requires ValidSetup(s)
    requires Lookup(s, st, e).Ok?
    requires e !in st.devices && e !in st.names
    requires forall j :: 0 <= j < |s.pointRows| ==> !(SetsDevice(QueryOf(s.template), st, s.pointRows[j]) && s.pointRows[j].equipRef == e)
    ensures Lookup(s, st, e).value.value == (None, None)
  {
    if st.names == map[] {
      LoadUntouched(QueryOf(s.template), st, s.pointRows, e);
    }
  }

  /** Once something is loaded, a lookup reads the maps and changes nothing. */
  lemma LookupCached(s: JsonSetup, st: JState, e: string)
    requires ValidSetup(s)
    requires st.names != map[]
    ensures Lookup(s, st, e) == Ok(Step((MapGet(st.devices, e), MapGet(st.names, e)), st))
  {
  }

  /** On the first lookup, the device id and name are those of the last row
      that sets them. */
  lemma LookupFound(s: JsonSetup, st: JState, e: string, i: nat)
    requires ValidSetup(s)
    requires st.names == map[] && Lookup(s, st, e).Ok?
    requires i < |s.pointRows| && s.pointRows[i].equipRef == e && SetsDevice(QueryOf(s.template), st, s.pointRows[i])
    requires forall j :: i < j < |s.pointRows| ==> !(SetsDevice(QueryOf(s.template), st, s.pointRows[j]) && s.pointRows[j].equipRef == e)
    ensures var (dev, obj) := Lookup(s, st, e).value.value;
      var topic := s.pointRows[i].topic;
      dev == SegmentAt(topic, 4) && obj.Some? &&
      Ok(obj.value) == ObjectNameFromTopic(topic, if e in st.vavList then "vav" else "ahu", QueryOf(s.template))
  {
    LoadLastWins(QueryOf(s.template), st, s.pointRows, i);
  }

  // ----- generate_config_from_template -----

  /** `generate_config_from_template`: `None` and a record when a
      placeholder's value is missing (a `KeyError` when the equipment has no
      topic), else the template with its query filled. */
  function Cfg(s: JsonSetup, st: JState, e: string, equipType: string): Result<Step<Option<Json>>>
    requires ValidSetup(s)
  {
    var l :- Lookup(s, st, e);
    var (dev, obj) := l.value;
    if MissingPlaceholder(QueryOf(s.template), dev, obj) then
      if e !in l.st.topics then Err(KeyErrorMsg(e))
      else
        var rec := TopicRecord(equipType, ParseErrorJson, JStr(l.st.topics[e]));
        Ok(Step(None, l.st.(unmapped := Mark(l.st.unmapped, e, rec))))
    else Ok(Step(Some(Formatted(s.template, dev, obj)), l.st))
  }

  /** No config exactly when a placeholder has no value, and then the
      equipment's record names its type, its topic and the parse error; a
      config is the template with only its query substituted. The call fails
      when the lookup does, or when a placeholder has no value and the
      equipment no topic. */
  lemma CfgSpec(s: JsonSetup, st: JState, e: string, equipType: string)
    requires ValidSetup(s) && Lookup(s, st, e).Ok?
    ensures var l := Lookup(s, st, e).value; var (dev, obj) := l.value; var q := QueryOf(s.template);
      var r := Cfg(s, st, e, equipType);
      (r.Err? <==> MissingPlaceholder(q, dev, obj) && e !in l.st.topics) &&
      (r.Ok? ==> (r.value.value.None? <==> MissingPlaceholder(q, dev, obj))) &&
      (r.Ok? && r.value.value.None? ==>
        var t := r.value.st.unmapped;
        e in t && t[e]["type"] == JStr(equipType) && t[e]["topic_name"] == JStr(l.st.topics[e]) &&
        t[e]["error"] == JStr(ParseErrorJson)) &&
      (r.Ok? && r.value.value.Some? ==>
        r.value.st == l.st &&
        var c := r.value.value.value;
        DriverTemplate(c) && QueryOf(c) == FormatQuery(q, PyStr(dev), PyStr(obj)) &&
        c == WithQuery(s.template, QueryOf(c)))
  {
    var l := Lookup(s, st, e).value;
    var (dev, obj) := l.value;
    if MissingPlaceholder(QueryOf(s.template), dev, obj) && e in l.st.topics {
      MarkSpec(l.st.unmapped, e, TopicRecord(equipType, ParseErrorJson, JStr(l.st.topics[e])));
    }
  }

  // ----- generate_ahu_configs (base) -----

  /** The configs of the VAVs, one after the other. */
  function Cfgs(s: JsonSetup, st: JState, vavs: seq<string>): (r: Result<Step<seq<Option<Json>>>>)
    requires ValidSetup(s)
    ensures r.Ok? ==> |r.value.value| == |vavs|
    decreases |vavs|
  {
    if vavs == [] then Ok(Step([], st))
    else
      var n := |vavs| - 1;
      var p :- Cfgs(s, st, vavs[..n]);
      var c :- Cfg(s, p.st, vavs[n], "vav");
      Ok(Step(p.value + [c.value], c.st))
  }

  /** The VAV topics of one AHU. */
  function VavTopicsOf(prefix: string, ahuId: string, ahu: string, vavs: seq<string>): (ts: seq<string>)
    ensures |ts| == |vavs|
    ensures forall i :: 0 <= i < |vavs| ==> ts[i] == VavTopic(prefix, ahuId, ahu, NameFromId(vavs[i]))
  {
    seq(|vavs|, i requires 0 <= i < |vavs| => VavTopic(prefix, ahuId, ahu, NameFromId(vavs[i])))
  }

  /** The AHU entry of the mapper, present only for a non-empty AHU id. */
  function Head(s: JsonSetup, st: JState, ahuId: string): Result<Step<ODict<Option<Json>>>>
    requires ValidSetup(s)
  {
    if ahuId == "" then Ok(Step([], st))
    else
      var c :- Cfg(s, st, ahuId, "ahu");
      Ok(Step([(AhuTopic(s.prefix, NameFromId(ahuId)), c.value)], c.st))
  }

  /** `generate_ahu_configs`: the AHU entry, then `final_mapper[topic] =
      config` for each VAV. */
  function AhuMapper(s: JsonSetup, st: JState, ahuId: string, vavs: seq<string>): Result<Step<ODict<Option<Json>>>>
    requires ValidSetup(s)
  {
    var h :- Head(s, st, ahuId);
    var cs :- Cfgs(s, h.st, vavs);
    Ok(Step(PutAll(h.value, VavTopicsOf(s.prefix, ahuId, NameFromId(ahuId), vavs), cs.value), cs.st))
  }

  /** The i-th VAV config is the one generated after those before it. */
  lemma {:induction false} CfgsAt(s: JsonSetup, st: JState, vavs: seq<string>, i: nat)
    requires ValidSetup(s) && Cfgs(s, st, vavs).Ok? && i < |vavs|
    ensures Cfgs(s, st, vavs[..i]).Ok?
    ensures var p := Cfgs(s, st, vavs[..i]).value; var c := Cfg(s, p.st, vavs[i], "vav");
      c.Ok? && Cfgs(s, st, vavs).value.value[i] == c.value.value
    decreases |vavs|
  {
    var n := |vavs| - 1;
    var p := Cfgs(s, st, vavs[..n]);
    assert p.Ok?;
    if i < n {
      assert Cfgs(s, st, vavs).value.value[i] == p.value.value[i];
      assert vavs[..n][..i] == vavs[..i];
      CfgsAt(s, st, vavs[..n], i);
    } else {
      assert vavs[..i] == vavs[..n];
    }
  }

  /** The keys are the AHU topic (for a non-empty AHU id) and the VAV
      topics, each once. */
  lemma AhuMapperKeys(s: JsonSetup, st: JState, ahuId: string, vavs: seq<string>)
    requires ValidSetup(s) && AhuMapper(s, st, ahuId, vavs).Ok?
    ensures var m := AhuMapper(s, st, ahuId, vavs).value.value;
      var ts := VavTopicsOf(s.prefix, ahuId, NameFromId(ahuId), vavs);
      UniqueKeys(m) &&
      forall k :: k in Keys(m) <==> (ahuId != "" && k == AhuTopic(s.prefix, NameFromId(ahuId))) || k in ts
  {
    var h := Head(s, st, ahuId).value;
    var cs := Cfgs(s, h.st, vavs).value;
    assert Keys(h.value) == if ahuId != "" then [AhuTopic(s.prefix, NameFromId(ahuId))] else [];
    PutAllKeys(h.value, VavTopicsOf(s.prefix, ahuId, NameFromId(ahuId), vavs), cs.value);
  }

  /** A non-empty AHU id gets the AHU's config under the AHU topic, which no
      VAV topic overwrites. */
  lemma AhuMapperAhu(s: JsonSetup, st: JState, ahuId: string, vavs: seq<string>)
    requires ValidSetup(s) && AhuMapper(s, st, ahuId, vavs).Ok? && ahuId != ""
    ensures Cfg(s, st, ahuId, "ahu").Ok?
    ensures Get(AhuMapper(s, st, ahuId, vavs).value.value, AhuTopic(s.prefix, NameFromId(ahuId))) ==
            Some(Cfg(s, st, ahuId, "ahu").value.value)
  {
    var ahu := NameFromId(ahuId);
    var h := Head(s, st, ahuId).value;
    var cs := Cfgs(s, h.st, vavs).value;
    var ts := VavTopicsOf(s.prefix, ahuId, ahu, vavs);
    assert forall i :: 0 <= i < |ts| ==> |ts[i]| > |AhuTopic(s.prefix, ahu)|;
    PutAllUntouched(h.value, ts, cs.value, AhuTopic(s.prefix, ahu));
  }

  /** A VAV topic holds the config of the last VAV with that topic. */
  lemma AhuMapperVav(s: JsonSetup, st: JState, ahuId: string, vavs: seq<string>, i: nat)
    requires ValidSetup(s) && AhuMapper(s, st, ahuId, vavs).Ok? && i < |vavs|
    requires var ts := VavTopicsOf(s.prefix, ahuId, NameFromId(ahuId), vavs);
      forall j :: i < j < |vavs| ==> ts[j] != ts[i]
    ensures var h := Head(s, st, ahuId).value;
      Cfgs(s, h.st, vavs).Ok? &&
      Get(AhuMapper(s, st, ahuId, vavs).value.value, VavTopicsOf(s.prefix, ahuId, NameFromId(ahuId), vavs)[i]) ==
      Some(Cfgs(s, h.st, vavs).value.value[i])
  {
    var h := Head(s, st, ahuId).value;
    var cs := Cfgs(s, h.st, vavs).value;
    PutAllLast(h.value, VavTopicsOf(s.prefix, ahuId, NameFromId(ahuId), vavs), cs.value, i);
  }

  lemma {:induction false} CfgsPrefixErr(s: JsonSetup, st: JState, vavs: seq<string>, k: nat)
    requires ValidSetup(s) && k <= |vavs| && Cfgs(s, st, vavs[..k]).Err?
    ensures Cfgs(s, st, vavs).Err?
    decreases |vavs| - k
  {
    if k < |vavs| {
      assert vavs[..k + 1][..k] == vavs[..k];
      CfgsPrefixErr(s, st, vavs, k + 1);
    } else {
      assert vavs[..k] == vavs;
    }
  }

  // ----- generate_configs (base) -----

  /** One written file: where, and the mapper dumped into it. */
  datatype Written = Written(file: OutFile, mapper: ODict<Option<Json>>)

  /** The loop of `generate_configs` over the result of `get_ahu_and_vavs`. */
  function Outputs(s: JsonSetup, st: JState, groups: ODict<seq<string>>): (r: Result<Step<seq<Written>>>)
    requires ValidSetup(s)
    ensures r.Ok? ==> |r.value.value| == |groups|
    decreases |groups|
  {
    if groups == [] then Ok(Step([], st))
    else
      var n := |groups| - 1;
      var p :- Outputs(s, st, groups[..n]);
      var m :- AhuMapper(s, p.st, groups[n].0, groups[n].1);
      Ok(Step(p.value + [Written(OutFileFor(NameFromId(groups[n].0)), m.value)], m.st))
  }

  /** One more AHU of the loop. */
  lemma OutputsStep(s: JsonSetup, st: JState, groups: ODict<seq<string>>, i: nat)
    requires ValidSetup(s) && i < |groups| && Outputs(s, st, groups[..i]).Ok?
    ensures var p := Outputs(s, st, groups[..i]).value; var m := AhuMapper(s, p.st, groups[i].0, groups[i].1);
      Outputs(s, st, groups[..i + 1]) ==
        if m.Err? then Err(m.msg) else Ok(Step(p.value + [Written(OutFileFor(NameFromId(groups[i].0)), m.value.value)], m.value.st))
  {
    assert groups[..i + 1][..i] == groups[..i];
  }

  /** The i-th file is named after the i-th AHU (the unmapped-VAVs file for
      an empty name) and holds its mapper, generated after those before it. */
  lemma {:induction false} OutputsAt(s: JsonSetup, st: JState, groups: ODict<seq<string>>, i: nat)
    requires ValidSetup(s) && Outputs(s, st, groups).Ok? && i < |groups|
    ensures Outputs(s, st, groups[..i]).Ok?
    ensures var p := Outputs(s, st, groups[..i]).value; var m := AhuMapper(s, p.st, groups[i].0, groups[i].1);
      m.Ok? && Outputs(s, st, groups).value.value[i] == Written(OutFileFor(NameFromId(groups[i].0)), m.value.value)
    decreases |groups|
  {
    var n := |groups| - 1;
    var p := Outputs(s, st, groups[..n]);
    assert p.Ok?;
    if i < n {
      assert Outputs(s, st, groups).value.value[i] == p.value.value[i];
      assert groups[..n][..i] == groups[..i];
      OutputsAt(s, st, groups[..n], i);
    } else {
      assert groups[..i] == groups[..n];
    }
  }

  lemma {:induction false} OutputsPrefixErr(s: JsonSetup, st: JState, groups: ODict<seq<string>>, k: nat)
    requires ValidSetup(s) && k <= |groups| && Outputs(s, st, groups[..k]).Err?
    ensures Outputs(s, st, groups).Err?
    decreases |groups| - k
  {
    if k < |groups| {
      assert groups[..k + 1][..k] == groups[..k];
      OutputsPrefixErr(s, st, groups, k + 1);
    } else {
      assert groups[..k] == groups;
    }
  }

  /** A dictionary of new keys with empty lists. */
  function Empties(xs: seq<string>): (d: ODict<seq<string>>)
    ensures |d| == |xs| && forall i :: 0 <= i < |xs| ==> d[i] == (xs[i], [])
  {
    seq(|xs|, i requires 0 <= i < |xs| => (xs[i], []))
  }

  lemma EmptiesKeys(xs: seq<string>)
    ensures Keys(Empties(xs)) == xs
  {
    KeysLen(Empties(xs));
  }

  lemma JsonAhuAndVavsIntro(g: Grouped, missing: seq<string>, result: ODict<seq<string>>)
    requires ListsExactly(missing, MissingAhus(g))
    requires result == g.groups + Empties(missing)
    ensures JsonAhuAndVavs(g, result)
  {
    assert result[..|g.groups|] == g.groups;
    assert result[|g.groups|..] == Empties(missing);
    EmptiesKeys(missing);
  }

  // ----- get_ahu_and_vavs on the object as `__init__` leaves it -----

  /** Which of the three attributes `get_ahu_and_vavs` uses exist on the
      object: `vav_list`, `ahu_list` and `unmapped_device_details`. */
  datatype Attrs = Attrs(hasVavList: bool, hasAhuList: bool, hasUnmapped: bool)

  /** Neither this generator's `__init__` nor the base's sets any of the
      three. */
  const InitAttrs := Attrs(false, false, false)

  /** The attributes `JsonDriver` starts with, empty. */
  const FixedAttrs := Attrs(true, true, true)

  /** One row of the loop of `get_ahu_and_vavs`, up to its accesses of the
      attributes: a VAV row without a truthy `ahuRef` writes
      `unmapped_device_details`, every VAV row appends to `vav_list`, and a
      row tagged `ahu` appends to `ahu_list`. A missing attribute raises
      `AttributeError`. */
  function AccessStep(a: Attrs, r: EquipRow): Result<()> {
    if "vav" in r.tags then
      if !HasAhuRef(r) && !a.hasUnmapped then Err("AttributeError")
      else if !a.hasVavList then Err("AttributeError")
      else Ok(())
    else if "ahu" in r.tags then
      if a.hasAhuList then Ok(()) else Err("AttributeError")
    else Ok(())
  }

  function AccessRows(a: Attrs, rows: seq<EquipRow>): Result<()>
    decreases |rows|
  {
    if rows == [] then Ok(())
    else
      var _ :- AccessRows(a, rows[..|rows| - 1]);
      AccessStep(a, rows[|rows| - 1])
  }

  /** `get_ahu_and_vavs` as the source writes it, up to whether it raises:
      the row loop, then `set(self.ahu_list)`. */
  function GetAhuAndVavsAsWritten(a: Attrs, rows: seq<EquipRow>): Result<()> {
    var _ :- AccessRows(a, rows);
    if a.hasAhuList then Ok(()) else Err("AttributeError")
  }

  /** The row loop raises exactly when a row touches a missing attribute. */
  lemma {:induction false} AccessRowsSpec(a: Attrs, rows: seq<EquipRow>)
    ensures AccessRows(a, rows).Ok? <==>
      (VavIds(rows) != [] ==> a.hasVavList) &&
      (OrphanIds(rows) != [] ==> a.hasUnmapped) &&
      (AhuOnlyIds(rows) != [] ==> a.hasAhuList)
    ensures AccessRows(a, rows).Err? ==> AccessRows(a, rows).msg == "AttributeError"
    decreases |rows|
  {
    if rows != [] {
      AccessRowsSpec(a, rows[..|rows| - 1]);
    }
  }

  /** The call succeeds exactly when `ahu_list` exists and so does every
      other attribute some row touches; otherwise it is an `AttributeError`. */
  lemma GetAhuAndVavsAsWrittenSpec(a: Attrs, rows: seq<EquipRow>)
    ensures GetAhuAndVavsAsWritten(a, rows).Ok? <==>
      a.hasAhuList && (VavIds(rows) != [] ==> a.hasVavList) && (OrphanIds(rows) != [] ==> a.hasUnmapped)
    ensures GetAhuAndVavsAsWritten(a, rows).Err? ==> GetAhuAndVavsAsWritten(a, rows).msg == "AttributeError"
  {
    AccessRowsSpec(a, rows);
  }

  /** On the object `__init__` leaves, `get_ahu_and_vavs` raises
      `AttributeError` for every equipment document, even one without rows,
      so `generate_configs`, which calls it first, writes nothing. */
  lemma AsWrittenAlwaysRaises(rows: seq<EquipRow>)
    ensures GetAhuAndVavsAsWritten(InitAttrs, rows) == Err("AttributeError")
  {
    GetAhuAndVavsAsWrittenSpec(InitAttrs, rows);
  }

  /** With the three attributes initialised, as `JsonDriver` does, no row
      raises, and the call is the grouping `GroupRows` and `JsonAhuAndVavs`
      describe. */
  lemma FixedNeverRaises(rows: seq<EquipRow>)
    ensures GetAhuAndVavsAsWritten(FixedAttrs, rows) == Ok(())
  {
    GetAhuAndVavsAsWrittenSpec(FixedAttrs, rows);
  }

  class JsonDriver {
    const setup: JsonSetup
    var vavList: seq<string>
    var ahuList: seq<string>
    /** `unmapped_device_details` */
    var unmapped: Table
    /** `equip_id_topic_name_map` */
    var topicMap: map<string, string>
    /** `equip_id_device_name_map` */
    var nameMap: map<string, string>
    /** `equip_id_device_id_map` */
    var deviceMap: map<string, string>

    function State(): JState
      reads this
    {
      JState(vavList, ahuList, unmapped, topicMap, nameMap, deviceMap)
    }

    /** `__init__`, with `vav_list`, `ahu_list` and
        `unmapped_device_details` started empty (`FixedAttrs`), which the
        source omits (`AsWrittenAlwaysRaises`). */
    constructor (setup: JsonSetup)
      requires ValidSetup(setup)
      ensures this.setup == setup && State() == JState([], [], map[], map[], map[], map[])
    {
      this.setup := setup;
      vavList := [];
      ahuList := [];
      unmapped := map[];
      topicMap := map[];
      nameMap := map[];
      deviceMap := map[];
    }

    method GetAhuAndVavs() returns (groups: ODict<seq<string>>)
      modifies this
      ensures var g := GroupRows(Grouped([], old(State())), setup.equipRows);
        JsonAhuAndVavs(g, groups) && State() == g.st
    {
      ghost var g0 := Grouped([], State());
      var rows := setup.equipRows;
      groups := [];
      var i := 0;
      while i < |rows|
        invariant 0 <= i <= |rows|
        invariant Grouped(groups, State()) == GroupRows(g0, rows[..i])
      {
        groups := GroupRow(groups, i, g0);
        i := i + 1;
      }
      assert rows[..i] == rows;
      ghost var g := Grouped(groups, State());
      var missing: seq<string> := [];
      if !((set a | a in ahuList) <= (set k | k in Keys(groups))) {
        missing := SetToList((set a | a in ahuList) - (set k | k in Keys(groups)));
        groups := AddAhusWithoutVavs(groups, missing);
      } else {
        assert MissingAhus(g) == {};
      }
      JsonAhuAndVavsIntro(g, missing, groups);
    }

    /** One row of the loop of `get_ahu_and_vavs`. */
    method GroupRow(before: ODict<seq<string>>, i: nat, ghost g0: Grouped) returns (after: ODict<seq<string>>)
      requires i < |setup.equipRows|
      requires Grouped(before, State()) == GroupRows(g0, setup.equipRows[..i])
      modifies this
      ensures Grouped(after, State()) == GroupRows(g0, setup.equipRows[..i + 1])
    {
      var r := setup.equipRows[i];
      after := before;
      if "vav" in r.tags {
        if HasAhuRef(r) {
          after := AppendAt(after, r.ahuRef.value, r.id);
        } else {
          after := AppendAt(after, "", r.id);
          unmapped := unmapped[r.id := NoAhuRefRecord()];
        }
        vavList := vavList + [r.id];
      } else if "ahu" in r.tags {
        ahuList := ahuList + [r.id];
      }
      assert setup.equipRows[..i + 1][..i] == setup.equipRows[..i];
    }

    /** `ahu_dict[a] = []` for each AHU that is not a key. */
    method AddAhusWithoutVavs(before: ODict<seq<string>>, missing: seq<string>) returns (after: ODict<seq<string>>)
      requires Distinct(missing) && forall i :: 0 <= i < |missing| ==> missing[i] !in Keys(before)
      ensures after == before + Empties(missing)
    {
      after := before;
      var i := 0;
      while i < |missing|
        invariant 0 <= i <= |missing|
        invariant after == before + Empties(missing[..i])
      {
        KeysAppend(before, Empties(missing[..i]));
        EmptiesKeys(missing[..i]);
        PutNew(after, missing[i], []);
        after := Put(after, missing[i], []);
        assert Empties(missing[..i + 1]) == Empties(missing[..i]) + [(missing[i], [])];
        i := i + 1;
      }
      assert missing[..i] == missing;
    }

    /** The loading loop of `get_nf_device_id_and_name`. */
    method LoadPoints() returns (r: Result<()>)
      requires ValidSetup(setup)
      modifies this
      ensures var e := Load(QueryOf(setup.template), old(State()), setup.pointRows);
        (r.Ok? <==> e.Ok?) && (r.Ok? ==> State() == e.value)
    {
      var q := QueryOf(setup.template);
      var rows := setup.pointRows;
      ghost var st0 := State();
      var i := 0;
      while i < |rows|
        invariant 0 <= i <= |rows|
        invariant Load(q, st0, rows[..i]) == Ok(State())
      {
        var ok := LoadRow(q, rows[i]);
        assert rows[..i + 1][..i] == rows[..i];
        if !ok {
          LoadPrefixErr(q, st0, rows, i + 1);
          return Err(IndexErrorMsg);
        }
        i := i + 1;
      }
      assert rows[..i] == rows;
      r := Ok(());
    }

    /** One point row of the loading loop. */
    method LoadRow(q: string, row: PointRow) returns (ok: bool)
      modifies this
      ensures var e := LoadStep(q, old(State()), row); (ok <==> e.Ok?) && (ok ==> State() == e.value)
    {
      var e := row.equipRef;
      if '.' !in row.id {
        return false;
      }
      if e in vavList {
        topicMap := topicMap[e := row.topic];
        var name := ObjectNameFromTopic(row.topic, "vav", q);
        assert name.Ok?;
        nameMap := nameMap[e := name.value];
        var dev := SegmentAt(row.topic, 4);
        if dev.None? {
          return false;
        }
        deviceMap := deviceMap[e := dev.value];
        if e in unmapped {
          unmapped := Mark(unmapped, e, map["topic_name" := JStr(row.topic)]);
        }
      } else if e in ahuList {
        topicMap := topicMap[e := row.topic];
        var name := ObjectNameFromTopic(row.topic, "ahu", q);
        if name.Ok? {
          nameMap := nameMap[e := name.value];
          var dev := SegmentAt(row.topic, 4);
          if dev.None? {
            return false;
          }
          deviceMap := deviceMap[e := dev.value];
        }
      }
      ok := true;
    }

    method GetNfDeviceIdAndName(equipId: string) returns (r: Result<(Option<string>, Option<string>)>)
      requires ValidSetup(setup)
      modifies this
      ensures var e := Lookup(setup, old(State()), equipId);
        (r.Ok? <==> e.Ok?) && (r.Ok? ==> r.value == e.value.value && State() == e.value.st)
    {
      if nameMap == map[] {
        var loaded := LoadPoints();
        if loaded.Err? {
          return Err(loaded.msg);
        }
      }
      r := Ok((MapGet(deviceMap, equipId), MapGet(nameMap, equipId)));
    }

    method GenerateConfigFromTemplate(equipId: string, equipType: string) returns (r: Result<Option<Json>>)
      requires ValidSetup(setup)
      modifies this
      ensures var e := Cfg(setup, old(State()), equipId, equipType);
        (r.Ok? <==> e.Ok?) && (r.Ok? ==> r.value == e.value.value && State() == e.value.st)
    {
      var ids := GetNfDeviceIdAndName(equipId);
      if ids.Err? {
        return Err(ids.msg);
      }
      var (dev, obj) := ids.value;
      if MissingPlaceholder(QueryOf(setup.template), dev, obj) {
        if equipId !in topicMap {
          return Err(KeyErrorMsg(equipId));
        }
        unmapped := Mark(unmapped, equipId, TopicRecord(equipType, ParseErrorJson, JStr(topicMap[equipId])));
        r := Ok(None);
      } else {
        r := Ok(Some(Formatted(setup.template, dev, obj)));
      }
    }

    method GenerateAhuConfigs(ahuId: string, vavs: seq<string>) returns (r: Result<(string, ODict<Option<Json>>)>)
      requires ValidSetup(setup)
      modifies this
      ensures var e := AhuMapper(setup, old(State()), ahuId, vavs);
        (r.Ok? <==> e.Ok?) && (r.Ok? ==> r.value == (NameFromId(ahuId), e.value.value) && State() == e.value.st)
    {
      var ahu := NameFromId(ahuId);
      var h := AhuConfig(ahuId);
      if h.Err? {
        return Err(h.msg);
      }
      var mapper := h.value;
      ghost var head := mapper;
      ghost var st1 := State();
      assert Head(setup, old(State()), ahuId) == Ok(Step(head, st1));
      var ts := VavTopicsOf(setup.prefix, ahuId, ahu, vavs);
      var i := 0;
      while i < |vavs|
        invariant 0 <= i <= |vavs|
        invariant Cfgs(setup, st1, vavs[..i]).Ok?
        invariant var p := Cfgs(setup, st1, vavs[..i]).value;
          p.st == State() && mapper == PutAll(head, ts[..i], p.value)
      {
        var next := VavConfig(ts, vavs, i, st1, head, mapper);
        if next.Err? {
          CfgsPrefixErr(setup, st1, vavs, i + 1);
          return Err(next.msg);
        }
        mapper := next.value;
        i := i + 1;
      }
      assert vavs[..i] == vavs && ts[..i] == ts;
      r := Ok((ahu, mapper));
    }

    /** The AHU entry of `generate_ahu_configs`. */
    method AhuConfig(ahuId: string) returns (r: Result<ODict<Option<Json>>>)
      requires ValidSetup(setup)
      modifies this
      ensures var e := Head(setup, old(State()), ahuId);
        (r.Ok? <==> e.Ok?) && (r.Ok? ==> r.value == e.value.value && State() == e.value.st)
    {
      if ahuId == "" {
        return Ok([]);
      }
      var c := GenerateConfigFromTemplate(ahuId, "ahu");
      if c.Err? {
        return Err(c.msg);
      }
      r := Ok([(AhuTopic(setup.prefix, NameFromId(ahuId)), c.value)]);
    }

    /** One VAV of the loop of `generate_ahu_configs`. */
    method VavConfig(ts: seq<string>, vavs: seq<string>, i: nat, ghost st1: JState, ghost head: ODict<Option<Json>>,
                     before: ODict<Option<Json>>) returns (r: Result<ODict<Option<Json>>>)
      requires ValidSetup(setup) && i < |vavs| && |ts| == |vavs|
      requires Cfgs(setup, st1, vavs[..i]).Ok?
      requires var p := Cfgs(setup, st1, vavs[..i]).value;
        p.st == State() && before == PutAll(head, ts[..i], p.value)
      modifies this
      ensures r.Ok? <==> Cfgs(setup, st1, vavs[..i + 1]).Ok?
      ensures r.Ok? ==> var p := Cfgs(setup, st1, vavs[..i + 1]).value;
        p.st == State() && r.value == PutAll(head, ts[..i + 1], p.value)
    {
      ghost var p := Cfgs(setup, st1, vavs[..i]).value;
      assert vavs[..i + 1][..i] == vavs[..i];
      var c := GenerateConfigFromTemplate(vavs[i], "vav");
      if c.Err? {
        return Err(c.msg);
      }
      PutAllStep(head, ts, p.value, i, c.value);
      r := Ok(Put(before, ts[i], c.value));
    }

    method GenerateConfigs() returns (r: Result<seq<Written>>)
      requires ValidSetup(setup)
      modifies this
      ensures var g := GroupRows(Grouped([], old(State())), setup.equipRows);
        exists groups :: JsonAhuAndVavs(g, groups) &&
          var e := Outputs(setup, g.st, groups);
          (r.Ok? <==> e.Ok?) && (r.Ok? ==> r.value == e.value.value && State() == e.value.st)
    {
      var groups := GetAhuAndVavs();
      ghost var st1 := State();
      var outputs: seq<Written> := [];
      var i := 0;
      while i < |groups|
        invariant 0 <= i <= |groups|
        invariant Outputs(setup, st1, groups[..i]) == Ok(Step(outputs, State()))
      {
        var w := GenerateAhuOutput(groups, i, st1, outputs);
        if w.Err? {
          OutputsPrefixErr(setup, st1, groups, i + 1);
          return Err(w.msg);
        }
        outputs := outputs + [w.value];
        i := i + 1;
      }
      assert groups[..i] == groups;
      r := Ok(outputs);
    }

    /** One AHU of the loop of `generate_configs`: the file it writes. */
    method GenerateAhuOutput(groups: ODict<seq<string>>, i: nat, ghost st1: JState, ghost outputs: seq<Written>)
      returns (w: Result<Written>)
      requires ValidSetup(setup) && i < |groups|
      requires Outputs(setup, st1, groups[..i]) == Ok(Step(outputs, State()))
      modifies this
      ensures w.Ok? <==> Outputs(setup, st1, groups[..i + 1]).Ok?
      ensures w.Ok? ==> Outputs(setup, st1, groups[..i + 1]) == Ok(Step(outputs + [w.value], State()))
    {
      OutputsStep(setup, st1, groups, i);
      var res := GenerateAhuConfigs(groups[i].0, groups[i].1);
      if res.Err? {
        return Err(res.msg);
      }
      var (ahuName, mapper) := res.value;
      w := Ok(Written(OutFileFor(ahuName), mapper));
    }
  }
}
