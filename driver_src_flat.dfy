/** The src JSON driver generator of `driver/config_from_json.py`, an
    earlier variant of the one in `driver/json`: VAVs are recognised by
    `"vav"` in their short id and grouped by their `ahuRef` (which every VAV
    row must have), AHUs are exactly the group keys, the point index has no
    topic map, lookups index the maps directly, and every template query is
    filled. The topic patterns are `prefix + "{}"` and `prefix + "{}/{}"`. A
    Python exception is an `Err`; what the object holds after one is left
    open. */
module DriverSrcFlat {
  import opened Wrappers
  import opened Strs
  import opened Json
  import opened Names
  import opened Topics
  import opened Drivers
  import opened Rows
  import opened ODicts

  datatype FlatSetup = FlatSetup(prefix: string, template: Json, equipRows: seq<EquipRow>, pointRows: seq<PointRow>)

  predicate ValidSetup(s: FlatSetup) {
    DriverTemplate(s.template)
  }

  /** `vav_list`, `ahu_list` and the maps of equipment id to object name and
      device id. */
  datatype FlatState = FlatState(
    vavList: seq<string>,
    ahuList: seq<string>,
    names: map<string, string>,
    devices: map<string, string>)

  datatype Step<T> = Step(value: T, st: FlatState)

  // ----- get_ahu_and_vavs -----

  datatype Grouped = Grouped(groups: ODict<seq<string>>, st: FlatState)

  /** One row of the loop: a VAV is appended under `row["ahuRef"]`, a
      `KeyError` when the row has none. */
  function GroupStep(g: Grouped, r: EquipRow): Result<Grouped> {
    if ShortIdIsVav(r) then
      if r.ahuRef.None? then Err(KeyErrorMsg("ahuRef"))
      else Ok(Grouped(AppendAt(g.groups, r.ahuRef.value, r.id), g.st.(vavList := g.st.vavList + [r.id])))
    else Ok(g)
  }

  function GroupRows(g: Grouped, rows: seq<EquipRow>): Result<Grouped>
    decreases |rows|
  {
    if rows == [] then Ok(g)
    else
      var p :- GroupRows(g, rows[..|rows| - 1]);
      GroupStep(p, rows[|rows| - 1])
  }

  /** `get_ahu_and_vavs`: the loop, then `ahu_list.extend(ahu_dict.keys())`. */
  function AhuAndVavs(st: FlatState, rows: seq<EquipRow>): Result<Grouped> {
    var g :- GroupRows(Grouped([], st), rows);
    Ok(g.(st := g.st.(ahuList := g.st.ahuList + Keys(g.groups))))
  }

  /** Reference definitions: the ids of the rows classified as VAVs, and of
      those with one `ahuRef`, in row order. */
  function VavIds(rows: seq<EquipRow>): seq<string>
    decreases |rows|
  {
    if rows == [] then []
    else
      var r := rows[|rows| - 1];
      VavIds(rows[..|rows| - 1]) + (if ShortIdIsVav(r) then [r.id] else [])
  }

  function RefIds(rows: seq<EquipRow>, k: string): seq<string>
    decreases |rows|
  {
    if rows == [] then []
    else
      var r := rows[|rows| - 1];
      RefIds(rows[..|rows| - 1], k) + (if ShortIdIsVav(r) && r.ahuRef == Some(k) then [r.id] else [])
  }

  /** The grouping fails exactly when a VAV row has no `ahuRef`; otherwise
      `vav_list` grows by the VAV ids and the maps are untouched. */
  lemma {:induction false} GroupRowsOk(g: Grouped, rows: seq<EquipRow>)
    ensures GroupRows(g, rows).Ok? <==> forall i :: 0 <= i < |rows| && ShortIdIsVav(rows[i]) ==> rows[i].ahuRef.Some?
    ensures GroupRows(g, rows).Ok? ==> var g2 := GroupRows(g, rows).value;
      g2.st == g.st.(vavList := g.st.vavList + VavIds(rows))
    decreases |rows|
  {
    if rows != [] {
      var n := |rows| - 1;
      GroupRowsOk(g, rows[..n]);
      assert forall i :: 0 <= i < n ==> rows[..n][i] == rows[i];
    }
  }

  /** Each key holds, in row order, the ids of the VAVs naming it; a key is
      present only when some VAV names it, so no AHU without VAVs appears. */
  lemma {:induction false} GroupRowsBuckets(g: Grouped, rows: seq<EquipRow>, k: string)
    requires g.groups == [] && GroupRows(g, rows).Ok?
    ensures Get(GroupRows(g, rows).value.groups, k) == if RefIds(rows, k) == [] then None else Some(RefIds(rows, k))
    decreases |rows|
  {
    if rows != [] {
      var n := |rows| - 1;
      var r := rows[n];
      var prev := GroupRows(g, rows[..n]);
      assert prev.Ok?;
      GroupRowsBuckets(g, rows[..n], k);
      assert GroupRows(g, rows) == GroupStep(prev.value, r);
      assert RefIds(rows, k) == RefIds(rows[..n], k) + (if ShortIdIsVav(r) && r.ahuRef == Some(k) then [r.id] else []);
      if ShortIdIsVav(r) {
        var key := r.ahuRef.value;
        var old_ := Get(prev.value.groups, key);
        var v := (if old_.Some? then old_.value else []) + [r.id];
        PutSpec(prev.value.groups, key, v);
        if key == k {
          assert v == RefIds(rows, k);
        } else {
          assert RefIds(rows, k) == RefIds(rows[..n], k);
        }
      } else {
        assert RefIds(rows, k) == RefIds(rows[..n], k);
      }
    }
  }

  /** `ahu_list` gains exactly the keys, each once. */
  lemma AhuAndVavsKeys(st: FlatState, rows: seq<EquipRow>)
    requires AhuAndVavs(st, rows).Ok?
    ensures var g := AhuAndVavs(st, rows).value;
      UniqueKeys(g.groups) && g.st.ahuList == st.ahuList + Keys(g.groups) &&
      g.st.vavList == st.vavList + VavIds(rows) &&
      forall k :: k in Keys(g.groups) <==> RefIds(rows, k) != []
  {
    GroupRowsOk(Grouped([], st), rows);
    GroupRowsUnique(Grouped([], st), rows);
    var g := GroupRows(Grouped([], st), rows).value;
    forall k
      ensures k in Keys(g.groups) <==> RefIds(rows, k) != []
    {
      GroupRowsBuckets(Grouped([], st), rows, k);
      GetSome(g.groups, k);
    }
  }

  lemma {:induction false} GroupRowsUnique(g: Grouped, rows: seq<EquipRow>)
    requires g.groups == [] && GroupRows(g, rows).Ok?
    ensures UniqueKeys(GroupRows(g, rows).value.groups)
    decreases |rows|
  {
    if rows != [] {
      var n := |rows| - 1;
      var prev := GroupRows(g, rows[..n]);
      assert prev.Ok?;
      GroupRowsUnique(g, rows[..n]);
      if ShortIdIsVav(rows[n]) {
        var key := rows[n].ahuRef.value;
        var old_ := Get(prev.value.groups, key);
        PutSpec(prev.value.groups, key, (if old_.Some? then old_.value else []) + [rows[n].id]);
      }
    }
  }

  // ----- get_nf_device_id_and_name -----

  /** A point row that sets its equipment's device id and object name. */
  predicate SetsDevice(q: string, st: FlatState, r: PointRow) {
    r.equipRef in st.vavList ||
    (r.equipRef in st.ahuList && ObjectNameFromTopic(r.topic, "ahu", q).Ok?)
  }

  predicate RowLoads(q: string, st: FlatState, r: PointRow) {
    '.' in r.id && (SetsDevice(q, st, r) ==> SegmentAt(r.topic, 4).Some?)
  }

  /** One point row of the loading loop; an AHU row whose object name does
      not parse is skipped. */
  function LoadStep(q: string, st: FlatState, r: PointRow): Result<FlatState> {
    var e := r.equipRef;
    if '.' !in r.id then Err(IndexErrorMsg)
    else if e in st.vavList then
      match ObjectNameFromTopic(r.topic, "vav", q)
      case Err(m) => Err(m)
      case Ok(name) =>
        match SegmentAt(r.topic, 4)
        case None => Err(IndexErrorMsg)
        case Some(dev) => Ok(st.(names := st.names[e := name], devices := st.devices[e := dev]))
    else if e in st.ahuList then
      match ObjectNameFromTopic(r.topic, "ahu", q)
      case Err(_) => Ok(st)
      case Ok(name) =>
        match SegmentAt(r.topic, 4)
        case None => Err(IndexErrorMsg)
        case Some(dev) => Ok(st.(names := st.names[e := name], devices := st.devices[e := dev]))
    else Ok(st)
  }

  function Load(q: string, st: FlatState, rows: seq<PointRow>): Result<FlatState>
    decreases |rows|
  {
    if rows == [] then Ok(st)
    else
      var n := |rows| - 1;
      var p :- Load(q, st, rows[..n]);
      LoadStep(q, p, rows[n])
  }

  /** A row loads exactly when it passes; it keeps the lists, sets the
      device id and name of its equipment when it sets a device, and
      changes nothing else. */
  lemma LoadStepSpec(q: string, st: FlatState, r: PointRow)
    ensures LoadStep(q, st, r).Ok? <==> RowLoads(q, st, r)
    ensures LoadStep(q, st, r).Ok? ==> var st2 := LoadStep(q, st, r).value; var e := r.equipRef;
      st2.vavList == st.vavList && st2.ahuList == st.ahuList &&
      (SetsDevice(q, st, r) ==>
        e in st2.devices && Some(st2.devices[e]) == SegmentAt(r.topic, 4) &&
        e in st2.names && Ok(st2.names[e]) == ObjectNameFromTopic(r.topic, if e in st.vavList then "vav" else "ahu", q)) &&
      (forall k :: k != e || !SetsDevice(q, st, r) ==>
        MapGet(st2.devices, k) == MapGet(st.devices, k) && MapGet(st2.names, k) == MapGet(st.names, k))
  {
  }

  /** Loading fails exactly when some row does not load, and keeps the
      lists. */
  lemma {:induction false} LoadOk(q: string, st: FlatState, rows: seq<PointRow>)
    ensures Load(q, st, rows).Ok? <==> forall i :: 0 <= i < |rows| ==> RowLoads(q, st, rows[i])
    ensures Load(q, st, rows).Ok? ==> var st2 := Load(q, st, rows).value;
      st2.vavList == st.vavList && st2.ahuList == st.ahuList
    decreases |rows|
  {
    if rows != [] {
      var n := |rows| - 1;
      LoadOk(q, st, rows[..n]);
      assert forall i :: 0 <= i < n ==> rows[..n][i] == rows[i];
      if Load(q, st, rows[..n]).Ok? {
        LoadStepSpec(q, Load(q, st, rows[..n]).value, rows[n]);
      }
    }
  }

  /** The last row that sets an equipment's device decides its device id
      (segment 4 of the topic) and object name. */
  lemma {:induction false} LoadLastWins(q: string, st: FlatState, rows: seq<PointRow>, i: nat)
    requires Load(q, st, rows).Ok?
    requires i < |rows| && SetsDevice(q, st, rows[i])
    requires forall j :: i < j < |rows| ==> !(SetsDevice(q, st, rows[j]) && rows[j].equipRef == rows[i].equipRef)
    ensures var st2 := Load(q, st, rows).value; var e := rows[i].equipRef;
      e in st2.devices && Some(st2.devices[e]) == SegmentAt(rows[i].topic, 4) &&
      e in st2.names && Ok(st2.names[e]) == ObjectNameFromTopic(rows[i].topic, if e in st.vavList then "vav" else "ahu", q)
    decreases |rows|
  {
    var n := |rows| - 1;
    var p := Load(q, st, rows[..n]);
    LoadOk(q, st, rows[..n]);
    assert p.Ok?;
    assert Load(q, st, rows) == LoadStep(q, p.value, rows[n]);
    LoadStepSpec(q, p.value, rows[n]);
    if i < n {
      assert forall j :: i < j < n ==> rows[..n][j] == rows[j];
      LoadLastWins(q, st, rows[..n], i);
    }
  }

  /** An equipment no row sets keeps what the maps held for it. */
  lemma {:induction false} LoadUntouched(q: string, st: FlatState, rows: seq<PointRow>, e: string)
    requires Load(q, st, rows).Ok?
    requires forall j :: 0 <= j < |rows| ==> !(SetsDevice(q, st, rows[j]) && rows[j].equipRef == e)
    ensures var st2 := Load(q, st, rows).value;
      MapGet(st2.devices, e) == MapGet(st.devices, e) && MapGet(st2.names, e) == MapGet(st.names, e)
    decreases |rows|
  {
    if rows != [] {
      var n := |rows| - 1;
      var p := Load(q, st, rows[..n]);
      LoadOk(q, st, rows[..n]);
      assert p.Ok?;
      assert Load(q, st, rows) == LoadStep(q, p.value, rows[n]);
      LoadStepSpec(q, p.value, rows[n]);
      assert forall j :: 0 <= j < n ==> rows[..n][j] == rows[j];
      LoadUntouched(q, st, rows[..n], e);
    }
  }

  lemma {:induction false} LoadPrefixErr(q: string, st: FlatState, rows: seq<PointRow>, k: nat)
    requires k <= |rows| && Load(q, st, rows[..k]).Err?
    ensures Load(q, st, rows).Err?
    decreases |rows| - k
  {
    if k < |rows| {
      assert rows[..k + 1][..k] == rows[..k];
      LoadPrefixErr(q, st, rows, k + 1);
    } else {
      assert rows[..k] == rows;
    }
  }

  /** `get_nf_device_id_and_name`: load when the name map is empty, then
      index both maps (a `KeyError` for an equipment missing from either). */
  function Lookup(s: FlatSetup, st: FlatState, e: string): Result<Step<(string, string)>>
    requires ValidSetup(s)
  {
    var st1 :- if st.names == map[] then Load(QueryOf(s.template), st, s.pointRows) else Ok(st);
    if e !in st1.devices || e !in st1.names then Err(KeyErrorMsg(e))
    else Ok(Step((st1.devices[e], st1.names[e]), st1))
  }

  /** On the first lookup, an equipment with a row that sets it gets the
      values of the last such row; one with none raises. */
  lemma LookupFirst(s: FlatSetup, st: FlatState, e: string)
    requires ValidSetup(s) && st == FlatState(st.vavList, st.ahuList, map[], map[])
    requires Load(QueryOf(s.template), st, s.pointRows).Ok?
    ensures var q := QueryOf(s.template); var rows := s.pointRows;
      (Lookup(s, st, e).Err? <==> forall j :: 0 <= j < |rows| ==> !(SetsDevice(q, st, rows[j]) && rows[j].equipRef == e)) &&
      forall i :: (0 <= i < |rows| && rows[i].equipRef == e && SetsDevice(q, st, rows[i]) &&
        (forall j :: i < j < |rows| ==> !(SetsDevice(q, st, rows[j]) && rows[j].equipRef == e))) ==>
        Lookup(s, st, e).Ok? && Some(Lookup(s, st, e).value.value.0) == SegmentAt(rows[i].topic, 4) &&
        Ok(Lookup(s, st, e).value.value.1) == ObjectNameFromTopic(rows[i].topic, if e in st.vavList then "vav" else "ahu", q)
  {
    var q := QueryOf(s.template);
    var rows := s.pointRows;
    if forall j :: 0 <= j < |rows| ==> !(SetsDevice(q, st, rows[j]) && rows[j].equipRef == e) {
      LoadUntouched(q, st, rows, e);
    } else {
      var i :| 0 <= i < |rows| && SetsDevice(q, st, rows[i]) && rows[i].equipRef == e;
      var last := LastSetting(q, st, rows, e, i);
      LoadLastWins(q, st, rows, last);
      forall i' | 0 <= i' < |rows| && rows[i'].equipRef == e && SetsDevice(q, st, rows[i']) &&
        (forall j :: i' < j < |rows| ==> !(SetsDevice(q, st, rows[j]) && rows[j].equipRef == e))
        ensures i' == last
      {
      }
    }
  }

  /** The last row that sets an equipment, given one that does. */
  lemma {:induction false} LastSetting(q: string, st: FlatState, rows: seq<PointRow>, e: string, i: nat) returns (last: nat)
    requires i < |rows| && SetsDevice(q, st, rows[i]) && rows[i].equipRef == e
    ensures i <= last < |rows| && SetsDevice(q, st, rows[last]) && rows[last].equipRef == e
    ensures forall j :: last < j < |rows| ==> !(SetsDevice(q, st, rows[j]) && rows[j].equipRef == e)
    decreases |rows| - i
  {
    if exists j :: i < j < |rows| && SetsDevice(q, st, rows[j]) && rows[j].equipRef == e {
      var j :| i < j < |rows| && SetsDevice(q, st, rows[j]) && rows[j].equipRef == e;
      last := LastSetting(q, st, rows, e, j);
    } else {
      last := i;
    }
  }

  /** Once loaded, a lookup only reads the maps. */
  lemma LookupCached(s: FlatSetup, st: FlatState, e: string)
    requires ValidSetup(s) && st.names != map[]
    ensures Lookup(s, st, e).Ok? <==> e in st.devices && e in st.names
    ensures Lookup(s, st, e).Ok? ==> Lookup(s, st, e).value == Step((st.devices[e], st.names[e]), st)
  {
  }

  // ----- generate_config_from_template, generate_ahu_configs -----

  /** The template with its query filled with the device id and object
      name. */
  function Cfg(s: FlatSetup, st: FlatState, e: string, equipType: string): Result<Step<Json>>
    requires ValidSetup(s)
  {
    var l :- Lookup(s, st, e);
    Ok(Step(Formatted(s.template, Some(l.value.0), Some(l.value.1)), l.st))
  }

  /** A config is a copy of the template with only its query substituted. */
  lemma CfgSpec(s: FlatSetup, st: FlatState, e: string, equipType: string)
    requires ValidSetup(s)
    ensures Cfg(s, st, e, equipType).Ok? <==> Lookup(s, st, e).Ok?
    ensures Cfg(s, st, e, equipType).Ok? ==>
      var l := Lookup(s, st, e).value; var c := Cfg(s, st, e, equipType).value;
      c.st == l.st && DriverTemplate(c.value) &&
      QueryOf(c.value) == FormatQuery(QueryOf(s.template), l.value.0, l.value.1) &&
      c.value == WithQuery(s.template, QueryOf(c.value))
  {
    if Lookup(s, st, e).Ok? {
      var l := Lookup(s, st, e).value;
      FormattedSpec(s.template, Some(l.value.0), Some(l.value.1));
    }
  }

  function Cfgs(s: FlatSetup, st: FlatState, vavs: seq<string>): (r: Result<Step<seq<Json>>>)
    requires ValidSetup(s)
    ensures r.Ok? ==> |r.value.value| == |vavs|
    decreases |vavs|
  {
    if vavs == [] then Ok(Step([], st))
    else
      var n := |vavs| - 1;
      var p :- Cfgs(s, st, vavs[..n]);
      var c :- Cfg(s, p.st, vavs[n], "vav");
      Ok(Step(p.value + [c.value], c.st))
  }

  /** `generate_ahu_configs`: the AHU entry, then one per VAV. */
  function AhuMapper(s: FlatSetup, st: FlatState, ahuId: string, vavs: seq<string>): Result<Step<ODict<Json>>>
    requires ValidSetup(s)
  {
    var ahu := NameFromId(ahuId);
    var h :- Cfg(s, st, ahuId, "ahu");
    var cs :- Cfgs(s, h.st, vavs);
    Ok(Step(PutAll([(AhuTopic(s.prefix, ahu), h.value)], AhuVavTopics(s.prefix, ahu, vavs), cs.value), cs.st))
  }

  lemma {:induction false} CfgsAt(s: FlatSetup, st: FlatState, vavs: seq<string>, i: nat)
    requires ValidSetup(s) && Cfgs(s, st, vavs).Ok? && i < |vavs|
    ensures Cfgs(s, st, vavs[..i]).Ok?
    ensures var p := Cfgs(s, st, vavs[..i]).value; var c := Cfg(s, p.st, vavs[i], "vav");
      c.Ok? && Cfgs(s, st, vavs).value.value[i] == c.value.value
    decreases |vavs|
  {
    var n := |vavs| - 1;
    var p := Cfgs(s, st, vavs[..n]);
    assert p.Ok?;
    if i < n {
      assert Cfgs(s, st, vavs).value.value[i] == p.value.value[i];
      assert vavs[..n][..i] == vavs[..i];
      CfgsAt(s, st, vavs[..n], i);
    } else {
      assert vavs[..i] == vavs[..n];
    }
  }

  /** The keys are the AHU topic and the VAV topics, each once; the AHU
      topic holds the AHU's config and each VAV topic the config of the last
      VAV with that topic. */
  lemma AhuMapperSpec(s: FlatSetup, st: FlatState, ahuId: string, vavs: seq<string>, i: nat)
    requires ValidSetup(s) && AhuMapper(s, st, ahuId, vavs).Ok? && i < |vavs|
    requires var ts := AhuVavTopics(s.prefix, NameFromId(ahuId), vavs);
      forall j :: i < j < |vavs| ==> ts[j] != ts[i]
    ensures var m := AhuMapper(s, st, ahuId, vavs).value.value;
      var ahu := NameFromId(ahuId);
      var ts := AhuVavTopics(s.prefix, ahu, vavs);
      var h := Cfg(s, st, ahuId, "ahu");
      UniqueKeys(m) &&
      (forall k :: k in Keys(m) <==> k == AhuTopic(s.prefix, ahu) || k in ts) &&
      h.Ok? && Get(m, AhuTopic(s.prefix, ahu)) == Some(h.value.value) &&
      Cfgs(s, h.value.st, vavs).Ok? && Get(m, ts[i]) == Some(Cfgs(s, h.value.st, vavs).value.value[i])
  {
    var ahu := NameFromId(ahuId);
    var h := Cfg(s, st, ahuId, "ahu").value;
    var cs := Cfgs(s, h.st, vavs).value;
    var ts := AhuVavTopics(s.prefix, ahu, vavs);
    var head := [(AhuTopic(s.prefix, ahu), h.value)];
    assert Keys(head) == [AhuTopic(s.prefix, ahu)];
    PutAllKeys(head, ts, cs.value);
    assert forall j :: 0 <= j < |ts| ==> |ts[j]| > |AhuTopic(s.prefix, ahu)|;
    PutAllUntouched(head, ts, cs.value, AhuTopic(s.prefix, ahu));
    PutAllLast(head, ts, cs.value, i);
  }

  lemma {:induction false} CfgsPrefixErr(s: FlatSetup, st: FlatState, vavs: seq<string>, k: nat)
    requires ValidSetup(s) && k <= |vavs| && Cfgs(s, st, vavs[..k]).Err?
    ensures Cfgs(s, st, vavs).Err?
    decreases |vavs| - k
  {
    if k < |vavs| {
      assert vavs[..k + 1][..k] == vavs[..k];
      CfgsPrefixErr(s, st, vavs, k + 1);
    } else {
      assert vavs[..k] == vavs;
    }
  }

  class FlatDriver {
    const setup: FlatSetup
    var vavList: seq<string>
    var ahuList: seq<string>
    /** `equip_id_device_name_map` */
    var nameMap: map<string, string>
    /** `equip_id_device_id_map` */
    var deviceMap: map<string, string>

    function State(): FlatState
      reads this
    {
      FlatState(vavList, ahuList, nameMap, deviceMap)
    }

    constructor (setup: FlatSetup)
      requires ValidSetup(setup)
      ensures this.setup == setup && State() == FlatState([], [], map[], map[])
    {
      this.setup := setup;
      vavList := [];
      ahuList := [];
      nameMap := map[];
      deviceMap := map[];
    }

    method GetAhuAndVavs() returns (r: Result<ODict<seq<string>>>)
      modifies this
      ensures var e := AhuAndVavs(old(State()), setup.equipRows);
        (r.Ok? <==> e.Ok?) && (r.Ok? ==> r.value == e.value.groups && State() == e.value.st)
    {
      ghost var g0 := Grouped([], State());
      var rows := setup.equipRows;
      var groups := [];
      var i := 0;
      while i < |rows|
        invariant 0 <= i <= |rows|
        invariant GroupRows(g0, rows[..i]) == Ok(Grouped(groups, State()))
      {
        var next := GroupRow(groups, i, g0);
        if next.Err? {
          GroupPrefixErr(g0, rows, i + 1);
          return Err(next.msg);
        }
        groups := next.value;
        i := i + 1;
      }
      assert rows[..i] == rows;
      ahuList := ahuList + Keys(groups);
      r := Ok(groups);
    }

    /** One row of the loop of `get_ahu_and_vavs`. */
    method GroupRow(before: ODict<seq<string>>, i: nat, ghost g0: Grouped) returns (r: Result<ODict<seq<string>>>)
      requires i < |setup.equipRows|
      requires GroupRows(g0, setup.equipRows[..i]) == Ok(Grouped(before, State()))
      modifies this
      ensures r.Ok? <==> GroupRows(g0, setup.equipRows[..i + 1]).Ok?
      ensures r.Ok? ==> GroupRows(g0, setup.equipRows[..i + 1]) == Ok(Grouped(r.value, State()))
    {
      var row := setup.equipRows[i];
      assert setup.equipRows[..i + 1][..i] == setup.equipRows[..i];
      if ShortIdIsVav(row) {
        if row.ahuRef.None? {
          return Err(KeyErrorMsg("ahuRef"));
        }
        r := Ok(AppendAt(before, row.ahuRef.value, row.id));
        vavList := vavList + [row.id];
      } else {
        r := Ok(before);
      }
    }

    method LoadPoints() returns (r: Result<()>)
      requires ValidSetup(setup)
      modifies this
      ensures var e := Load(QueryOf(setup.template), old(State()), setup.pointRows);
        (r.Ok? <==> e.Ok?) && (r.Ok? ==> State() == e.value)
    {
      var q := QueryOf(setup.template);
      var rows := setup.pointRows;
      ghost var st0 := State();
      var i := 0;
      while i < |rows|
        invariant 0 <= i <= |rows|
        invariant Load(q, st0, rows[..i]) == Ok(State())
      {
        var ok := LoadRow(q, rows[i]);
        assert rows[..i + 1][..i] == rows[..i];
        if !ok {
          LoadPrefixErr(q, st0, rows, i + 1);
          return Err(IndexErrorMsg);
        }
        i := i + 1;
      }
      assert rows[..i] == rows;
      r := Ok(());
    }

    method LoadRow(q: string, row: PointRow) returns (ok: bool)
      modifies this
      ensures var e := LoadStep(q, old(State()), row); (ok <==> e.Ok?) && (ok ==> State() == e.value)
    {
      var e := row.equipRef;
      if '.' !in row.id {
        return false;
      }
      if e in vavList {
        var name := ObjectNameFromTopic(row.topic, "vav", q);
        assert name.Ok?;
        nameMap := nameMap[e := name.value];
        var dev := SegmentAt(row.topic, 4);
        if dev.None? {
          return false;
        }
        deviceMap := deviceMap[e := dev.value];
      } else if e in ahuList {
        var name := ObjectNameFromTopic(row.topic, "ahu", q);
        if name.Ok? {
          nameMap := nameMap[e := name.value];
          var dev := SegmentAt(row.topic, 4);
          if dev.None? {
            return false;
          }
          deviceMap := deviceMap[e := dev.value];
        }
      }
      ok := true;
    }

    method GetNfDeviceIdAndName(equipId: string) returns (r: Result<(string, string)>)
      requires ValidSetup(setup)
      modifies this
      ensures var e := Lookup(setup, old(State()), equipId);
        (r.Ok? <==> e.Ok?) && (r.Ok? ==> r.value == e.value.value && State() == e.value.st)
    {
      if nameMap == map[] {
        var loaded := LoadPoints();
        if loaded.Err? {
          return Err(loaded.msg);
        }
      }
      if equipId !in deviceMap || equipId !in nameMap {
        return Err(KeyErrorMsg(equipId));
      }
      r := Ok((deviceMap[equipId], nameMap[equipId]));
    }

    method GenerateConfigFromTemplate(equipId: string, equipType: string) returns (r: Result<Json>)
      requires ValidSetup(setup)
      modifies this
      ensures var e := Cfg(setup, old(State()), equipId, equipType);
        (r.Ok? <==> e.Ok?) && (r.Ok? ==> r.value == e.value.value && State() == e.value.st)
    {
      var ids := GetNfDeviceIdAndName(equipId);
      if ids.Err? {
        return Err(ids.msg);
      }
      r := Ok(Formatted(setup.template, Some(ids.value.0), Some(ids.value.1)));
    }

    method GenerateAhuConfigs(ahuId: string, vavs: seq<string>) returns (r: Result<(string, ODict<Json>)>)
      requires ValidSetup(setup)
      modifies this
      ensures var e := AhuMapper(setup, old(State()), ahuId, vavs);
        (r.Ok? <==> e.Ok?) && (r.Ok? ==> r.value == (NameFromId(ahuId), e.value.value) && State() == e.value.st)
    {
      var ahu := NameFromId(ahuId);
      var c := GenerateConfigFromTemplate(ahuId, "ahu");
      if c.Err? {
        return Err(c.msg);
      }
      var mapper: ODict<Json> := Put([], AhuTopic(setup.prefix, ahu), c.value);
      ghost var head := mapper;
      ghost var st1 := State();
      var ts := AhuVavTopics(setup.prefix, ahu, vavs);
      var i := 0;
      while i < |vavs|
        invariant 0 <= i <= |vavs|
        invariant Cfgs(setup, st1, vavs[..i]).Ok?
        invariant var p := Cfgs(setup, st1, vavs[..i]).value;
          p.st == State() && mapper == PutAll(head, ts[..i], p.value)
      {
        var next := VavConfig(ts, vavs, i, st1, head, mapper);
        if next.Err? {
          CfgsPrefixErr(setup, st1, vavs, i + 1);
          return Err(next.msg);
        }
        mapper := next.value;
        i := i + 1;
      }
      assert vavs[..i] == vavs && ts[..i] == ts;
      r := Ok((ahu, mapper));
    }

    method VavConfig(ts: seq<string>, vavs: seq<string>, i: nat, ghost st1: FlatState, ghost head: ODict<Json>,
                     before: ODict<Json>) returns (r: Result<ODict<Json>>)
      requires ValidSetup(setup) && i < |vavs| && |ts| == |vavs|
      requires Cfgs(setup, st1, vavs[..i]).Ok?
      requires var p := Cfgs(setup, st1, vavs[..i]).value;
        p.st == State() && before == PutAll(head, ts[..i], p.value)
      modifies this
      ensures r.Ok? <==> Cfgs(setup, st1, vavs[..i + 1]).Ok?
      ensures r.Ok? ==> var p := Cfgs(setup, st1, vavs[..i + 1]).value;
        p.st == State() && r.value == PutAll(head, ts[..i + 1], p.value)
    {
      ghost var p := Cfgs(setup, st1, vavs[..i]).value;
      assert vavs[..i + 1][..i] == vavs[..i];
      var c := GenerateConfigFromTemplate(vavs[i], "vav");
      if c.Err? {
        return Err(c.msg);
      }
      PutAllStep(head, ts, p.value, i, c.value);
      r := Ok(Put(before, ts[i], c.value));
    }
  }

  lemma {:induction false} GroupPrefixErr(g: Grouped, rows: seq<EquipRow>, k: nat)
    requires k <= |rows| && GroupRows(g, rows[..k]).Err?
    ensures GroupRows(g, rows).Err?
    decreases |rows| - k
  {
    if k < |rows| {
      assert rows[..k + 1][..k] == rows[..k];
      GroupPrefixErr(g, rows, k + 1);
    } else {
      assert rows[..k] == rows;
    }
  }
}
