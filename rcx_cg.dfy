/** The config_generators airside RCx generator over the two JSON metadata
    documents (`JsonAirsideRCxConfigGenerator` with the
    `AirsideRCxConfigGenerator` base it extends). VAVs are grouped under
    their `ahuRef`; the point document is loaded once into a map of
    equipment to meta value to point name; each AHU's config gets the names
    of its six AHU points and, per VAV role, the names found on its VAVs.
    Missing points are reported in `unmapped_device_details`. A Python
    exception is an `Err`; what the object holds after one is left open. */
module RcxCg {
  import opened Wrappers
  import opened Json
  import opened Names
  import opened Drivers
  import opened Rows
  import opened ODicts
  import opened Collapse
  import opened Rcx

  /** The config as `__init__` leaves it: the template with its `device`
      set, `point_meta_map`, `point_meta_field`, and the rows of the two
      documents. */
  datatype RcxSetup = RcxSetup(
    template: Json,
    metaMap: map<string, string>,
    metaField: string,
    equipRows: seq<EquipRow>,
    pointRows: seq<PointRow>)

  /** What `__init__` establishes: every point key has a meta value and the
      template is a dictionary. */
  predicate ValidSetup(s: RcxSetup) {
    MetaMapComplete(s.metaMap) && s.template.JObj?
  }

  /** `__init__`: the building and campus (from the site id when not
      configured), the meta values of the point keys, and the template's
      `device` entry. */
  function SetupOf(siteId: string, building: string, campus: string, template: Json,
                   metaMap: map<string, string>, metaField: string,
                   equipRows: seq<EquipRow>, pointRows: seq<PointRow>): (r: Result<RcxSetup>)
    ensures r.Ok? <==> Location(siteId, building, campus).Ok? && MetaMapComplete(metaMap) && template.JObj?
    ensures r.Ok? ==> ValidSetup(r.value)
    ensures r.Ok? ==> var (b, c) := Location(siteId, building, campus).value;
      r.value == RcxSetup(InitTemplate(template, c, b), metaMap, metaField, equipRows, pointRows)
  {
    var loc :- Location(siteId, building, campus);
    if !MetaMapComplete(metaMap) then Err("KeyError: a point key is missing from point_meta_map")
    else if !template.JObj? then Err("TypeError: config_template is not a dictionary")
    else Ok(RcxSetup(InitTemplate(template, loc.1, loc.0), metaMap, metaField, equipRows, pointRows))
  }

  /** The fields the methods update: `vav_list`, `ahu_list`,
      `unmapped_device_details`, `equip_id_point_topic_map` (equipment to
      meta value to topic) and `equip_id_point_map` (equipment to meta value
      to point name). */
  datatype RState = RState(
    vavList: seq<string>,
    ahuList: seq<string>,
    unmapped: Table,
    topicMap: map<string, map<string, string>>,
    pointMap: map<string, map<string, string>>)

  datatype Step<T> = Step(value: T, st: RState)

  // ----- get_ahu_and_vavs -----

  datatype Grouped = Grouped(groups: ODict<seq<string>>, st: RState)

  /** One row of the loop: a VAV-tagged row goes to `vav_list`, under its
      truthy `ahuRef` or, without one, into the unmapped table only. */
  function GroupStep(g: Grouped, r: EquipRow): Grouped {
    if "vav" in r.tags then
      var st := g.st.(vavList := g.st.vavList + [r.id]);
      if HasAhuRef(r) then Grouped(AppendAt(g.groups, r.ahuRef.value, r.id), st)
      else Grouped(g.groups, st.(unmapped := st.unmapped[r.id := NoAhuRefRecord()]))
    else g
  }

  function GroupRows(g: Grouped, rows: seq<EquipRow>): Grouped
    decreases |rows|
  {
    if rows == [] then g
    else GroupStep(GroupRows(g, rows[..|rows| - 1]), rows[|rows| - 1])
  }

  /** `get_ahu_and_vavs`: the loop, then `ahu_list.extend(ahu_dict.keys())`. */
  function AhuAndVavs(st: RState, rows: seq<EquipRow>): Grouped {
    var g := GroupRows(Grouped([], st), rows);
    g.(st := g.st.(ahuList := g.st.ahuList + Keys(g.groups)))
  }

  /** Reference definitions, in row order: the VAV-tagged ids, those whose
      truthy `ahuRef` is `k`, and those without a truthy `ahuRef`. */
  function VavIds(rows: seq<EquipRow>): seq<string>
    decreases |rows|
  {
    if rows == [] then []
    else
      var r := rows[|rows| - 1];
      VavIds(rows[..|rows| - 1]) + (if "vav" in r.tags then [r.id] else [])
  }

  function RefIds(rows: seq<EquipRow>, k: string): seq<string>
    decreases |rows|
  {
    if rows == [] then []
    else
      var r := rows[|rows| - 1];
      RefIds(rows[..|rows| - 1], k) + (if "vav" in r.tags && HasAhuRef(r) && r.ahuRef.value == k then [r.id] else [])
  }

  predicate Orphan(r: EquipRow) {
    "vav" in r.tags && !HasAhuRef(r)
  }

  /** The lists grow by the VAV ids and the point maps are untouched. */
  lemma {:induction false} GroupRowsLists(g: Grouped, rows: seq<EquipRow>)
    ensures var g2 := GroupRows(g, rows);
      g2.st.vavList == g.st.vavList + VavIds(rows) && g2.st.ahuList == g.st.ahuList &&
      g2.st.topicMap == g.st.topicMap && g2.st.pointMap == g.st.pointMap
    decreases |rows|
  {
    if rows != [] {
      GroupRowsLists(g, rows[..|rows| - 1]);
    }
  }

  /** The unmapped table gains exactly the VAVs without `ahuRef`, each with
      the record saying so; other records are untouched. */
  lemma {:induction false} GroupRowsUnmapped(g: Grouped, rows: seq<EquipRow>)
    ensures var u := GroupRows(g, rows).st.unmapped;
      (forall k :: k in u <==> k in g.st.unmapped || exists i :: 0 <= i < |rows| && Orphan(rows[i]) && rows[i].id == k) &&
      (forall i :: 0 <= i < |rows| && Orphan(rows[i]) ==> u[rows[i].id] == NoAhuRefRecord()) &&
      (forall k :: k in g.st.unmapped && (forall i :: 0 <= i < |rows| ==> !(Orphan(rows[i]) && rows[i].id == k)) ==>
        u[k] == g.st.unmapped[k])
    decreases |rows|
  {
    if rows != [] {
      var n := |rows| - 1;
      GroupRowsUnmapped(g, rows[..n]);
      assert forall i :: 0 <= i < n ==> rows[..n][i] == rows[i];
      var u1 := GroupRows(g, rows[..n]).st.unmapped;
      var u := GroupRows(g, rows).st.unmapped;
      assert u == if Orphan(rows[n]) then u1[rows[n].id := NoAhuRefRecord()] else u1;
      forall k | k in u
        ensures k in g.st.unmapped || exists i :: 0 <= i < |rows| && Orphan(rows[i]) && rows[i].id == k
      {
        if k !in u1 {
          assert Orphan(rows[n]) && rows[n].id == k;
        }
      }
    }
  }

  /** Each key holds, in row order, the ids of the VAVs whose truthy
      `ahuRef` it is; a key is present only when some VAV names it, so a VAV
      without `ahuRef` is in no group. */
  lemma {:induction false} GroupRowsBuckets(g: Grouped, rows: seq<EquipRow>, k: string)
    requires g.groups == []
    ensures Get(GroupRows(g, rows).groups, k) == if RefIds(rows, k) == [] then None else Some(RefIds(rows, k))
    decreases |rows|
  {
    if rows != [] {
      var n := |rows| - 1;
      var r := rows[n];
      var prev := GroupRows(g, rows[..n]);
      GroupRowsBuckets(g, rows[..n], k);
      assert GroupRows(g, rows) == GroupStep(prev, r);
      assert RefIds(rows, k) == RefIds(rows[..n], k) + (if "vav" in r.tags && HasAhuRef(r) && r.ahuRef.value == k then [r.id] else []);
      if "vav" in r.tags && HasAhuRef(r) {
        var key := r.ahuRef.value;
        var old_ := Get(prev.groups, key);
        var v := (if old_.Some? then old_.value else []) + [r.id];
        PutSpec(prev.groups, key, v);
        if key == k {
          assert v == RefIds(rows, k);
        } else {
          assert RefIds(rows, k) == RefIds(rows[..n], k);
        }
      } else {
        assert RefIds(rows, k) == RefIds(rows[..n], k);
      }
    }
  }

  lemma {:induction false} GroupRowsUnique(g: Grouped, rows: seq<EquipRow>)
    requires g.groups == []
    ensures UniqueKeys(GroupRows(g, rows).groups)
    decreases |rows|
  {
    if rows != [] {
      var n := |rows| - 1;
      var prev := GroupRows(g, rows[..n]);
      GroupRowsUnique(g, rows[..n]);
      var r := rows[n];
      if "vav" in r.tags && HasAhuRef(r) {
        var old_ := Get(prev.groups, r.ahuRef.value);
        PutSpec(prev.groups, r.ahuRef.value, (if old_.Some? then old_.value else []) + [r.id]);
      }
    }
  }

  /** `ahu_list` gains exactly the group keys, each once, and a key is an
      AHU some VAV names; every VAV id joins `vav_list`. */
  lemma AhuAndVavsSpec(st: RState, rows: seq<EquipRow>)
    ensures var g := AhuAndVavs(st, rows);
      UniqueKeys(g.groups) && g.st.ahuList == st.ahuList + Keys(g.groups) &&
      g.st.vavList == st.vavList + VavIds(rows) &&
      (forall k :: k in Keys(g.groups) <==> RefIds(rows, k) != []) &&
      (forall k :: k in Keys(g.groups) ==> Get(g.groups, k) == Some(RefIds(rows, k)))
  {
    GroupRowsLists(Grouped([], st), rows);
    GroupRowsUnique(Grouped([], st), rows);
    var g := GroupRows(Grouped([], st), rows);
    forall k
      ensures k in Keys(g.groups) <==> RefIds(rows, k) != []
      ensures k in Keys(g.groups) ==> Get(g.groups, k) == Some(RefIds(rows, k))
    {
      GroupRowsBuckets(Grouped([], st), rows, k);
      GetSome(g.groups, k);
    }
  }

  // ----- get_point_name: the loading loop -----

  /** A meta value of interest for the equipment: one of the VAV types for a
      VAV, one of the AHU types for an AHU, nothing for other equipment. */
  predicate Interested(s: RcxSetup, st: RState, e: string, pt: string)
    requires ValidSetup(s)
  {
    if e in st.vavList then pt in TypesOf(s.metaMap, VavKeys)
    else e in st.ahuList && pt in TypesOf(s.metaMap, AhuKeys)
  }

  /** A row that passes the meta check keeps its id's second-to-last `.`
      piece, which needs a `.`. */
  predicate RowLoads(s: RcxSetup, p: PointRow) {
    HasMeta(p, s.metaField) ==> '.' in p.id
  }

  /** A row that records its topic; one that also stores a point name; one
      that reports an unparsable damper point instead. */
  predicate Enters(s: RcxSetup, st: RState, p: PointRow)
    requires ValidSetup(s)
  {
    HasMeta(p, s.metaField) && Interested(s, st, p.equipRef, p.meta[s.metaField])
  }

  predicate StoresName(s: RcxSetup, st: RState, p: PointRow)
    requires ValidSetup(s)
  {
    Enters(s, st, p) && LastSegment(p.topic) != ""
  }

  predicate WarnsNoName(s: RcxSetup, st: RState, p: PointRow)
    requires ValidSetup(s)
  {
    Enters(s, st, p) && LastSegment(p.topic) == "" && p.meta[s.metaField] == DamperType(s)
  }

  /** The meta value of `zone_damper`. */
  function DamperType(s: RcxSetup): string
    requires ValidSetup(s)
  {
    assert VavKeys[1] == "zone_damper";
    s.metaMap["zone_damper"]
  }

  /** The row is about equipment `e` and meta value `pt`. */
  predicate Slot(s: RcxSetup, p: PointRow, e: string, pt: string) {
    p.equipRef == e && HasMeta(p, s.metaField) && p.meta[s.metaField] == pt
  }

  const NoNameMsg := "Warning. Unable to parse point name from topic name"

  function NoNameRecord(topic: string): Record {
    TopicRecord("vav", NoNameMsg, JStr(topic))
  }

  /** One point row of the loading loop. */
  function LoadStep(s: RcxSetup, st: RState, p: PointRow): Result<RState>
    requires ValidSetup(s)
  {
    if !HasMeta(p, s.metaField) then Ok(st)
    else if '.' !in p.id then Err(IndexErrorMsg)
    else
      var e := p.equipRef;
      var pt := p.meta[s.metaField];
      if !Interested(s, st, e, pt) then Ok(st)
      else
        var topics := st.topicMap[e := EntryOf(st.topicMap, e)[pt := p.topic]];
        var names := EntryOf(st.pointMap, e);
        var name := LastSegment(p.topic);
        if name != "" then Ok(st.(topicMap := topics, pointMap := st.pointMap[e := names[pt := name]]))
        else
          var unmapped := if pt == DamperType(s) then st.unmapped[e := NoNameRecord(p.topic)] else st.unmapped;
          Ok(st.(topicMap := topics, pointMap := st.pointMap[e := names], unmapped := unmapped))
  }

  function Load(s: RcxSetup, st: RState, rows: seq<PointRow>): Result<RState>
    requires ValidSetup(s)
    decreases |rows|
  {
    if rows == [] then Ok(st)
    else
      var n := |rows| - 1;
      var p :- Load(s, st, rows[..n]);
      LoadStep(s, p, rows[n])
  }

  /** A row fails exactly when it passes the meta check without a `.` in its
      id. It keeps the lists; a row of interest adds its equipment to both
      maps; an empty last topic piece of the damper type replaces the
      equipment's unmapped record. */
  lemma LoadStepSpec(s: RcxSetup, st: RState, p: PointRow)
    requires ValidSetup(s)
    ensures LoadStep(s, st, p).Ok? <==> RowLoads(s, p)
    ensures LoadStep(s, st, p).Ok? ==> var st2 := LoadStep(s, st, p).value; var e := p.equipRef;
      st2.vavList == st.vavList && st2.ahuList == st.ahuList &&
      st2.topicMap.Keys == st.topicMap.Keys + (if Enters(s, st, p) then {e} else {}) &&
      st2.pointMap.Keys == st.pointMap.Keys + (if Enters(s, st, p) then {e} else {}) &&
      st2.unmapped == if WarnsNoName(s, st, p) then st.unmapped[e := NoNameRecord(p.topic)] else st.unmapped
    ensures LoadStep(s, st, p).Ok? ==> LoadStepSlots(s, st, p, LoadStep(s, st, p).value)
  {
    if LoadStep(s, st, p).Ok? {
      LoadStepSlotsHold(s, st, p);
    }
  }

  /** A row of interest records its topic under its equipment and meta
      value and, when the topic's last `/` piece is not empty, that piece as
      the point name; every other slot keeps its value. */
  ghost predicate LoadStepSlots(s: RcxSetup, st: RState, p: PointRow, st2: RState)
    requires ValidSetup(s)
  {
    (forall k, pt :: At(st2.topicMap, k, pt) ==
      if Enters(s, st, p) && Slot(s, p, k, pt) then Some(p.topic) else At(st.topicMap, k, pt)) &&
    (forall k, pt :: At(st2.pointMap, k, pt) ==
      if StoresName(s, st, p) && Slot(s, p, k, pt) then Some(LastSegment(p.topic)) else At(st.pointMap, k, pt))
  }

  lemma LoadStepSlotsHold(s: RcxSetup, st: RState, p: PointRow)
    requires ValidSetup(s) && LoadStep(s, st, p).Ok?
    ensures LoadStepSlots(s, st, p, LoadStep(s, st, p).value)
  {
    if Enters(s, st, p) {
      LoadStepTopic(s, st, p);
      LoadStepName(s, st, p);
    }
  }

  lemma LoadStepTopic(s: RcxSetup, st: RState, p: PointRow)
    requires ValidSetup(s) && LoadStep(s, st, p).Ok? && Enters(s, st, p)
    ensures var e := p.equipRef;
      LoadStep(s, st, p).value.topicMap == st.topicMap[e := EntryOf(st.topicMap, e)[p.meta[s.metaField] := p.topic]]
  {
  }

  lemma LoadStepName(s: RcxSetup, st: RState, p: PointRow)
    requires ValidSetup(s) && LoadStep(s, st, p).Ok? && Enters(s, st, p)
    ensures var e := p.equipRef; var names := EntryOf(st.pointMap, e);
      LoadStep(s, st, p).value.pointMap ==
        if StoresName(s, st, p) then st.pointMap[e := names[p.meta[s.metaField] := LastSegment(p.topic)]]
        else st.pointMap[e := names]
  {
  }

  /** Loading fails exactly when some row fails, and keeps the lists. */
  lemma {:induction false} LoadOk(s: RcxSetup, st: RState, rows: seq<PointRow>)
    requires ValidSetup(s)
    ensures Load(s, st, rows).Ok? <==> forall i :: 0 <= i < |rows| ==> RowLoads(s, rows[i])
    ensures Load(s, st, rows).Ok? ==> var st2 := Load(s, st, rows).value;
      st2.vavList == st.vavList && st2.ahuList == st.ahuList
    decreases |rows|
  {
    if rows != [] {
      var n := |rows| - 1;
      LoadOk(s, st, rows[..n]);
      assert forall i :: 0 <= i < n ==> rows[..n][i] == rows[i];
      if Load(s, st, rows[..n]).Ok? {
        LoadStepSpec(s, Load(s, st, rows[..n]).value, rows[n]);
      }
    }
  }

  /** The unfolding of one more row, on a prefix that loads. */
  lemma LoadSnoc(s: RcxSetup, st: RState, rows: seq<PointRow>)
    requires ValidSetup(s) && rows != [] && Load(s, st, rows).Ok?
    ensures var n := |rows| - 1; var p := Load(s, st, rows[..n]);
      p.Ok? && Load(s, st, rows) == LoadStep(s, p.value, rows[n]) &&
      p.value.vavList == st.vavList && p.value.ahuList == st.ahuList &&
      (forall i :: 0 <= i < n ==> rows[..n][i] == rows[i])
  {
    var n := |rows| - 1;
    LoadOk(s, st, rows[..n]);
  }

  /** An equipment enters both maps exactly when a row of interest names it. */
  lemma {:induction false} LoadKeys(s: RcxSetup, st: RState, rows: seq<PointRow>)
    requires ValidSetup(s) && Load(s, st, rows).Ok?
    ensures var st2 := Load(s, st, rows).value;
      (forall e :: e in st2.pointMap <==> e in st.pointMap || exists i :: 0 <= i < |rows| && Enters(s, st, rows[i]) && rows[i].equipRef == e) &&
      (forall e :: e in st2.topicMap <==> e in st.topicMap || exists i :: 0 <= i < |rows| && Enters(s, st, rows[i]) && rows[i].equipRef == e)
    decreases |rows|
  {
    if rows != [] {
      var n := |rows| - 1;
      LoadSnoc(s, st, rows);
      LoadKeys(s, st, rows[..n]);
      LoadStepSpec(s, Load(s, st, rows[..n]).value, rows[n]);
    }
  }

  /** The last row of interest for an equipment and meta value decides its
      topic. */
  lemma {:induction false} LoadTopicLast(s: RcxSetup, st: RState, rows: seq<PointRow>, i: nat)
    requires ValidSetup(s) && Load(s, st, rows).Ok?
    requires i < |rows| && Enters(s, st, rows[i])
    requires var e := rows[i].equipRef; var pt := rows[i].meta[s.metaField];
      forall j :: i < j < |rows| ==> !(Enters(s, st, rows[j]) && Slot(s, rows[j], e, pt))
    ensures At(Load(s, st, rows).value.topicMap, rows[i].equipRef, rows[i].meta[s.metaField]) == Some(rows[i].topic)
    decreases |rows|
  {
    var n := |rows| - 1;
    LoadSnoc(s, st, rows);
    LoadStepSpec(s, Load(s, st, rows[..n]).value, rows[n]);
    if i < n {
      LoadTopicLast(s, st, rows[..n], i);
    }
  }

  /** The last row storing a name for an equipment and meta value decides
      the name; rows whose name is empty do not clear it. */
  lemma {:induction false} LoadNameLast(s: RcxSetup, st: RState, rows: seq<PointRow>, i: nat)
    requires ValidSetup(s) && Load(s, st, rows).Ok?
    requires i < |rows| && StoresName(s, st, rows[i])
    requires var e := rows[i].equipRef; var pt := rows[i].meta[s.metaField];
      forall j :: i < j < |rows| ==> !(StoresName(s, st, rows[j]) && Slot(s, rows[j], e, pt))
    ensures At(Load(s, st, rows).value.pointMap, rows[i].equipRef, rows[i].meta[s.metaField]) == Some(LastSegment(rows[i].topic))
    decreases |rows|
  {
    var n := |rows| - 1;
    LoadSnoc(s, st, rows);
    LoadStepSpec(s, Load(s, st, rows[..n]).value, rows[n]);
    if i < n {
      LoadNameLast(s, st, rows[..n], i);
    }
  }

  /** A slot no row stores a name in keeps what it held. */
  lemma {:induction false} LoadNameUntouched(s: RcxSetup, st: RState, rows: seq<PointRow>, e: string, pt: string)
    requires ValidSetup(s) && Load(s, st, rows).Ok?
    requires forall j :: 0 <= j < |rows| ==> !(StoresName(s, st, rows[j]) && Slot(s, rows[j], e, pt))
    ensures At(Load(s, st, rows).value.pointMap, e, pt) == At(st.pointMap, e, pt)
    decreases |rows|
  {
    if rows != [] {
      var n := |rows| - 1;
      LoadSnoc(s, st, rows);
      LoadStepSpec(s, Load(s, st, rows[..n]).value, rows[n]);
      LoadNameUntouched(s, st, rows[..n], e, pt);
    }
  }

  /** The last damper row with an unparsable topic decides the equipment's
      unmapped record; equipment without such a row keeps its record. */
  lemma {:induction false} LoadWarnLast(s: RcxSetup, st: RState, rows: seq<PointRow>, i: nat)
    requires ValidSetup(s) && Load(s, st, rows).Ok?
    requires i < |rows| && WarnsNoName(s, st, rows[i])
    requires forall j :: i < j < |rows| ==> !(WarnsNoName(s, st, rows[j]) && rows[j].equipRef == rows[i].equipRef)
    ensures var u := Load(s, st, rows).value.unmapped;
      rows[i].equipRef in u && u[rows[i].equipRef] == NoNameRecord(rows[i].topic)
    decreases |rows|
  {
    var n := |rows| - 1;
    LoadSnoc(s, st, rows);
    LoadStepSpec(s, Load(s, st, rows[..n]).value, rows[n]);
    if i < n {
      LoadWarnLast(s, st, rows[..n], i);
    }
  }

  lemma {:induction false} LoadUnmappedUntouched(s: RcxSetup, st: RState, rows: seq<PointRow>, e: string)
    requires ValidSetup(s) && Load(s, st, rows).Ok?
    requires forall j :: 0 <= j < |rows| ==> !(WarnsNoName(s, st, rows[j]) && rows[j].equipRef == e)
    ensures var u := Load(s, st, rows).value.unmapped;
      (e in u <==> e in st.unmapped) && (e in u ==> u[e] == st.unmapped[e])
    decreases |rows|
  {
    if rows != [] {
      var n := |rows| - 1;
      LoadSnoc(s, st, rows);
      LoadStepSpec(s, Load(s, st, rows[..n]).value, rows[n]);
      LoadUnmappedUntouched(s, st, rows[..n], e);
    }
  }

  /** Without any row of interest, loading changes nothing. */
  lemma {:induction false} LoadNothing(s: RcxSetup, st: RState, rows: seq<PointRow>)
    requires ValidSetup(s) && Load(s, st, rows).Ok?
    requires forall j :: 0 <= j < |rows| ==> !Enters(s, st, rows[j])
    ensures Load(s, st, rows) == Ok(st)
    decreases |rows|
  {
    if rows != [] {
      var n := |rows| - 1;
      LoadSnoc(s, st, rows);
      LoadNothing(s, st, rows[..n]);
      LoadStepSpec(s, st, rows[n]);
    }
  }

  lemma {:induction false} LoadPrefixErr(s: RcxSetup, st: RState, rows: seq<PointRow>, k: nat)
    requires ValidSetup(s) && k <= |rows| && Load(s, st, rows[..k]).Err?
    ensures Load(s, st, rows).Err?
    decreases |rows| - k
  {
    if k < |rows| {
      assert rows[..k + 1][..k] == rows[..k];
      LoadPrefixErr(s, st, rows, k + 1);
    } else {
      assert rows[..k] == rows;
    }
  }

  // ----- get_point_name -----

  /** `if not self.equip_id_point_map`: the document is loaded while the
      point map is empty. */
  function Loaded(s: RcxSetup, st: RState): Result<RState>
    requires ValidSetup(s)
  {
    if st.pointMap == map[] then Load(s, st, s.pointRows) else Ok(st)
  }

  /** Loading a second time changes nothing: either the first load filled the
      point map, or no row was of interest and the first load changed
      nothing. */
  lemma LoadedTwice(s: RcxSetup, st: RState)
    requires ValidSetup(s) && Loaded(s, st).Ok?
    ensures Loaded(s, Loaded(s, st).value) == Loaded(s, st)
  {
    var st1 := Loaded(s, st).value;
    if st.pointMap == map[] && st1.pointMap == map[] {
      LoadKeys(s, st, s.pointRows);
      forall j | 0 <= j < |s.pointRows|
        ensures !Enters(s, st, s.pointRows[j])
      {
        assert s.pointRows[j].equipRef !in st1.pointMap;
      }
      LoadNothing(s, st, s.pointRows);
    }
  }

  /** `get_point_name(equip_id, equip_type, key)`: the name stored for the
      key's meta value, `""` when none is; a `KeyError` for equipment the
      point map does not hold. */
  function PointName(s: RcxSetup, st: RState, e: string, key: string): Result<Step<string>>
    requires ValidSetup(s) && key in s.metaMap
  {
    var st1 :- Loaded(s, st);
    if e !in st1.pointMap then Err(KeyErrorMsg(e))
    else Ok(Step(NameIn(st1.pointMap[e], s.metaMap[key]), st1))
  }

  /** On a first lookup, an equipment is known exactly when some row of
      interest names it; a meta value no row stores a name for gives `""`;
      otherwise the name is the last piece of the topic of the last row
      storing one. */
  lemma PointNameFromRows(s: RcxSetup, st: RState, e: string, key: string)
    requires ValidSetup(s) && key in s.metaMap && st.pointMap == map[] && Load(s, st, s.pointRows).Ok?
    ensures var r := PointName(s, st, e, key); var rows := s.pointRows; var pt := s.metaMap[key];
      (r.Ok? <==> exists i :: 0 <= i < |rows| && Enters(s, st, rows[i]) && rows[i].equipRef == e) &&
      (r.Ok? && (forall i :: 0 <= i < |rows| ==> !(StoresName(s, st, rows[i]) && Slot(s, rows[i], e, pt))) ==>
        r.value.value == "") &&
      (forall i :: (0 <= i < |rows| && StoresName(s, st, rows[i]) && Slot(s, rows[i], e, pt) &&
                    (forall j :: i < j < |rows| ==> !(StoresName(s, st, rows[j]) && Slot(s, rows[j], e, pt)))) ==>
        r.Ok? && r.value.value == LastSegment(rows[i].topic))
  {
    var rows := s.pointRows;
    var pt := s.metaMap[key];
    LoadKeys(s, st, rows);
    var st1 := Load(s, st, rows).value;
    if forall i :: 0 <= i < |rows| ==> !(StoresName(s, st, rows[i]) && Slot(s, rows[i], e, pt)) {
      LoadNameUntouched(s, st, rows, e, pt);
    }
    forall i | 0 <= i < |rows| && StoresName(s, st, rows[i]) && Slot(s, rows[i], e, pt) &&
        (forall j :: i < j < |rows| ==> !(StoresName(s, st, rows[j]) && Slot(s, rows[j], e, pt)))
      ensures PointName(s, st, e, key).Ok? && PointName(s, st, e, key).value.value == LastSegment(rows[i].topic)
    {
      LoadNameLast(s, st, rows, i);
    }
  }

  /** Once loaded, a lookup neither reloads nor changes anything. */
  lemma PointNameLoaded(s: RcxSetup, st: RState, e: string, key: string)
    requires ValidSetup(s) && key in s.metaMap && st.pointMap != map[]
    ensures PointName(s, st, e, key) ==
      if e in st.pointMap then Ok(Step(NameIn(st.pointMap[e], s.metaMap[key]), st)) else Err(KeyErrorMsg(e))
  {
  }

  // ----- generate_ahu_configs -----

  /** The meta value of `zone_reheat`. */
  function ReheatType(s: RcxSetup): string
    requires ValidSetup(s)
  {
    assert VavKeys[0] == "zone_reheat";
    s.metaMap["zone_reheat"]
  }

  /** `equip_id_point_topic_map.get(id)` as a JSON value. */
  function TopicsOf(tm: map<string, map<string, string>>, e: string): Json {
    if e in tm then StrMap(tm[e]) else JNull
  }

  const NoFanMsg := "Neither fan_status nor fan_speed point is available"
  const NoDuctMsg := "Warning. No point of type duct_stcpr was found"
  const NoDamperMsg := "Warning. No point of type zone_damper was found"

  /** The topic maps of those VAVs that have one. */
  function VavTopics(tm: map<string, map<string, string>>, vavs: seq<string>): (r: map<string, Json>)
    ensures forall v :: v in r <==> v in vavs && v in tm
    ensures forall v :: v in r ==> r[v] == StrMap(tm[v])
  {
    map v | v in vavs && v in tm :: StrMap(tm[v])
  }

  /** The missing-damper record: type `"vav"`, with the topic maps of the
      AHU's VAVs. */
  function DamperRecord(tm: map<string, map<string, string>>, vavs: seq<string>): Record {
    TopicRecord("vav", NoDamperMsg, JObj(VavTopics(tm, vavs)))
  }

  /** The fan check: the `fan_status` name is empty and the template's
      `point_mapping` has no truthy `fan_speed` (the loop writes
      `fan_speedcmd`, never `fan_speed`). */
  predicate NoFan(s: RcxSetup, names: seq<string>)
    requires RcxTemplate(s.template) && |names| == |AhuKeys|
  {
    names[0] == "" && !Truthy(Mapped(s.template, "fan_speed"))
  }

  /** The warnings of a planned AHU: the duct warning when its `duct_stcpr`
      name is empty, then the damper warning over it when no VAV has a
      damper name. */
  function Warned(st: RState, ahuId: string, vavs: seq<string>, names: seq<string>, sets: map<string, set<string>>): Table
    requires |names| == |AhuKeys|
  {
    var u1 := if names[1] == "" then st.unmapped[ahuId := TopicRecord("ahu", NoDuctMsg, TopicsOf(st.topicMap, ahuId))]
              else st.unmapped;
    if SetOf(sets, "zone_damper") == {} then u1[ahuId := DamperRecord(st.topicMap, vavs)] else u1
  }

  /** Only the AHU's record may change: it is the damper warning when no
      damper name is found, else the duct warning when the `duct_stcpr` name
      is empty, else what it was. */
  lemma WarnedSpec(st: RState, ahuId: string, vavs: seq<string>, names: seq<string>, sets: map<string, set<string>>)
    requires |names| == |AhuKeys|
    ensures var u := Warned(st, ahuId, vavs, names, sets); var noDamper := SetOf(sets, "zone_damper") == {};
      u.Keys == st.unmapped.Keys + (if noDamper || names[1] == "" then {ahuId} else {}) &&
      (forall k :: k in st.unmapped && k != ahuId ==> u[k] == st.unmapped[k]) &&
      (noDamper ==> u[ahuId] == DamperRecord(st.topicMap, vavs)) &&
      (!noDamper && names[1] == "" ==> u[ahuId] == TopicRecord("ahu", NoDuctMsg, TopicsOf(st.topicMap, ahuId))) &&
      (!noDamper && names[1] != "" ==> u == st.unmapped)
  {
  }

  /** What `generate_ahu_configs` decides for an AHU: nothing for an empty
      id; no config when no fan point is found; otherwise the AHU's point
      names and the VAV role sets the config is built from. */
  datatype Plan =
    | NoAhu
    | FanMissing(ahu: string)
    | Planned(ahu: string, names: seq<string>, sets: map<string, set<string>>)

  /** The message of a template without an `arguments.point_mapping` object. */

  function AhuPlan(s: RcxSetup, st: RState, ahuId: string, vavs: seq<string>): Result<Step<Plan>>
    requires ValidSetup(s)
  {
    if ahuId == "" then Ok(Step(NoAhu, st))
    else if !RcxTemplate(s.template) then Err(TemplateErrorMsg)
    else
      var ahu := NameFromId(ahuId);
      var st1 :- Loaded(s, st);
      if ahuId !in st1.pointMap then Err(KeyErrorMsg(ahuId))
      else
        var names := AhuNames(s.metaMap, st1.pointMap[ahuId]);
        if NoFan(s, names) then
          Ok(Step(FanMissing(ahu), st1.(unmapped := st1.unmapped[ahuId := TopicRecord("ahu", NoFanMsg, TopicsOf(st1.topicMap, ahuId))])))
        else
          var sets :- VavSets(ReheatType(s), DamperType(s), st1.pointMap, vavs);
          Ok(Step(Planned(ahu, names, sets), st1.(unmapped := Warned(st1, ahuId, vavs, names, sets))))
  }

  /** An empty AHU id, and only that, gives no name and no config and
      changes nothing. */
  lemma AhuPlanNoAhu(s: RcxSetup, st: RState, ahuId: string, vavs: seq<string>)
    requires ValidSetup(s)
    ensures var r := AhuPlan(s, st, ahuId, vavs);
      (ahuId == "" <==> r.Ok? && r.value.value.NoAhu?) && (ahuId == "" ==> r.value.st == st)
  {
  }

  /** For a non-empty id the call fails exactly when the template has no
      point mapping, the document does not load, the AHU has no point of
      interest, or (with a fan point) some VAV has none. */
  lemma AhuPlanErr(s: RcxSetup, st: RState, ahuId: string, vavs: seq<string>)
    requires ValidSetup(s) && ahuId != ""
    ensures var r := AhuPlan(s, st, ahuId, vavs); var l := Loaded(s, st);
      r.Err? <==> (!RcxTemplate(s.template) || l.Err? || ahuId !in l.value.pointMap ||
                   (!NoFan(s, AhuNames(s.metaMap, l.value.pointMap[ahuId])) && exists i :: 0 <= i < |vavs| && vavs[i] !in l.value.pointMap))
  {
    var l := Loaded(s, st);
    if RcxTemplate(s.template) && l.Ok? && ahuId in l.value.pointMap {
      VavSetsSpec(ReheatType(s), DamperType(s), l.value.pointMap, vavs);
    }
  }

  /** Without a `fan_status` name and a truthy template `fan_speed`, the AHU
      gets no config, even when its `fan_speedcmd` point is found, and its
      unmapped record is the `"ahu"` error carrying its topic map; nothing
      else changes. */
  lemma AhuPlanFanMissing(s: RcxSetup, st: RState, ahuId: string, vavs: seq<string>)
    requires ValidSetup(s) && ahuId != "" && RcxTemplate(s.template)
    requires Loaded(s, st).Ok? && ahuId in Loaded(s, st).value.pointMap
    ensures var st1 := Loaded(s, st).value; var names := AhuNames(s.metaMap, st1.pointMap[ahuId]); var r := AhuPlan(s, st, ahuId, vavs);
      (NoFan(s, names) <==> r.Ok? && r.value.value.FanMissing?) &&
      (NoFan(s, names) ==>
        r.value == Step(FanMissing(NameFromId(ahuId)),
                        st1.(unmapped := st1.unmapped[ahuId := TopicRecord("ahu", NoFanMsg, TopicsOf(st1.topicMap, ahuId))])))
  {
  }

  /** With a fan point and a point map entry for every VAV, the AHU is
      planned whether or not its `duct_stcpr` point is found: the plan holds
      the AHU's six names and, per VAV role, exactly the non-empty names
      found on the VAVs, and only the unmapped table changes, by the
      warnings. */
  lemma AhuPlanPlanned(s: RcxSetup, st: RState, ahuId: string, vavs: seq<string>)
    requires ValidSetup(s) && ahuId != "" && RcxTemplate(s.template)
    requires Loaded(s, st).Ok? && ahuId in Loaded(s, st).value.pointMap
    requires !NoFan(s, AhuNames(s.metaMap, Loaded(s, st).value.pointMap[ahuId]))
    requires forall i :: 0 <= i < |vavs| ==> vavs[i] in Loaded(s, st).value.pointMap
    ensures var st1 := Loaded(s, st).value; var names := AhuNames(s.metaMap, st1.pointMap[ahuId]); var r := AhuPlan(s, st, ahuId, vavs);
      r.Ok? && r.value.value.Planned? &&
      var p := r.value.value;
      p.ahu == NameFromId(ahuId) && p.names == names && RoleNames(ReheatType(s), DamperType(s), st1.pointMap, vavs, p.sets) &&
      r.value.st == st1.(unmapped := Warned(st1, ahuId, vavs, names, p.sets))
  {
    VavSetsSpec(ReheatType(s), DamperType(s), Loaded(s, st).value.pointMap, vavs);
  }

  /** What `generate_ahu_configs` returns for a plan: `(None, None)` for an
      empty id, the AHU name and `None` when no fan point is found, and
      otherwise the AHU name and a config realising the plan. */
  predicate Returns(s: RcxSetup, p: Plan, vavs: seq<string>, out: (Option<string>, Option<Json>)) {
    match p
    case NoAhu => out == (None, None)
    case FanMissing(ahu) => out == (Some(ahu), None)
    case Planned(ahu, names, sets) =>
      out.0 == Some(ahu) && out.1.Some? && RcxTemplate(s.template) && |names| == |AhuKeys| &&
      Realises(out.1.value, s.template, ahu, vavs, names, sets)
  }

  // ----- generate_configs (base) -----

  /** The loop of `generate_configs` over the groups, in order. */
  function Plans(s: RcxSetup, st: RState, groups: ODict<seq<string>>): (r: Result<Step<seq<Plan>>>)
    requires ValidSetup(s)
    ensures r.Ok? ==> |r.value.value| == |groups|
    decreases |groups|
  {
    if groups == [] then Ok(Step([], st))
    else
      var n := |groups| - 1;
      var p :- Plans(s, st, groups[..n]);
      var a :- AhuPlan(s, p.st, groups[n].0, groups[n].1);
      Ok(Step(p.value + [a.value], a.st))
  }

  lemma PlansStep(s: RcxSetup, st: RState, groups: ODict<seq<string>>, i: nat)
    requires ValidSetup(s) && i < |groups| && Plans(s, st, groups[..i]).Ok?
    ensures var p := Plans(s, st, groups[..i]).value; var a := AhuPlan(s, p.st, groups[i].0, groups[i].1);
      Plans(s, st, groups[..i + 1]) == if a.Err? then Err(a.msg) else Ok(Step(p.value + [a.value.value], a.value.st))
  {
    assert groups[..i + 1][..i] == groups[..i];
  }

  lemma {:induction false} PlansPrefixErr(s: RcxSetup, st: RState, groups: ODict<seq<string>>, k: nat)
    requires ValidSetup(s) && k <= |groups| && Plans(s, st, groups[..k]).Err?
    ensures Plans(s, st, groups).Err?
    decreases |groups| - k
  {
    if k < |groups| {
      assert groups[..k + 1][..k] == groups[..k];
      PlansPrefixErr(s, st, groups, k + 1);
    } else {
      assert groups[..k] == groups;
    }
  }

  /** A result is written when it has a config and a non-empty name. */
  predicate Writes(out: (Option<string>, Option<Json>)) {
    out.0.Some? && out.0.value != "" && out.1.Some?
  }

  /** The files written, in order: the AHU name and its config. */
  function Files(outs: seq<(Option<string>, Option<Json>)>): seq<(string, Json)>
    decreases |outs|
  {
    if outs == [] then []
    else
      var n := |outs| - 1;
      Files(outs[..n]) + (if Writes(outs[n]) then [(outs[n].0.value, outs[n].1.value)] else [])
  }

  /** Exactly the results with a config and a non-empty name are written. */
  lemma {:induction false} FilesSpec(outs: seq<(Option<string>, Option<Json>)>)
    ensures forall i :: 0 <= i < |outs| && Writes(outs[i]) ==> (outs[i].0.value, outs[i].1.value) in Files(outs)
    ensures forall f :: f in Files(outs) ==>
      f.0 != "" && exists i :: 0 <= i < |outs| && outs[i] == (Some(f.0), Some(f.1))
    decreases |outs|
  {
    if outs != [] {
      var n := |outs| - 1;
      FilesSpec(outs[..n]);
      assert forall i :: 0 <= i < n ==> outs[..n][i] == outs[i];
    }
  }

  /** One more result adds its file, when written, at the end of the files
      and its entry to the metadata. */
  lemma OutputSnoc(outs: seq<(Option<string>, Option<Json>)>, o: (Option<string>, Option<Json>))
    ensures Files(outs + [o]) == Files(outs) + (if Writes(o) then [(o.0.value, o.1.value)] else [])
    ensures Writes(o) ==> Metadata(Files(outs + [o])) == Put(Metadata(Files(outs)), MetadataKey(o.0.value), MetaEntry(o.0.value))
    ensures !Writes(o) ==> Metadata(Files(outs + [o])) == Metadata(Files(outs))
  {
    assert (outs + [o])[..|outs|] == outs;
    if Writes(o) {
      var fs := Files(outs) + [(o.0.value, o.1.value)];
      assert fs[..|fs| - 1] == Files(outs);
    } else {
      assert Files(outs + [o]) == Files(outs) + [];
      assert Files(outs) + [] == Files(outs);
    }
  }

  /** The file of an AHU's config under the output directory. */
  function ConfigFile(ahu: string): string {
    "configs/" + ahu + ".json"
  }

  /** `[{"config": file}]` */
  function MetaEntry(ahu: string): Json {
    JArr([JObj(map["config" := JStr(ConfigFile(ahu))])])
  }

  /** `config_metadata`, one entry per written file. */
  function Metadata(files: seq<(string, Json)>): ODict<Json>
    decreases |files|
  {
    if files == [] then []
    else
      var n := |files| - 1;
      Put(Metadata(files[..n]), MetadataKey(files[n].0), MetaEntry(files[n].0))
  }

  /** The key of each written file, in order. */
  function MetaKeys(files: seq<(string, Json)>): (ks: seq<string>)
    ensures |ks| == |files| && forall i :: 0 <= i < |files| ==> ks[i] == MetadataKey(files[i].0)
    decreases |files|
  {
    if files == [] then [] else MetaKeys(files[..|files| - 1]) + [MetadataKey(files[|files| - 1].0)]
  }

  /** The metadata keys are `"airsidercx-"` and each written AHU name, once
      each. */
  lemma {:induction false} MetadataKeys(files: seq<(string, Json)>)
    ensures UniqueKeys(Metadata(files))
    ensures forall k :: k in Keys(Metadata(files)) <==> k in MetaKeys(files)
    decreases |files|
  {
    if files != [] {
      var n := |files| - 1;
      var prev := Metadata(files[..n]);
      MetadataKeys(files[..n]);
      PutSpec(prev, MetadataKey(files[n].0), MetaEntry(files[n].0));
    }
  }

  /** Each key holds its AHU's config file. */
  lemma {:induction false} MetadataValues(files: seq<(string, Json)>)
    ensures forall i :: 0 <= i < |files| ==> Get(Metadata(files), MetadataKey(files[i].0)) == Some(MetaEntry(files[i].0))
    decreases |files|
  {
    if files != [] {
      var n := |files| - 1;
      MetadataValues(files[..n]);
      PutSpec(Metadata(files[..n]), MetadataKey(files[n].0), MetaEntry(files[n].0));
      forall i | 0 <= i < n
        ensures Get(Metadata(files), MetadataKey(files[i].0)) == Some(MetaEntry(files[i].0))
      {
        assert files[..n][i] == files[i];
        if MetadataKey(files[i].0) == MetadataKey(files[n].0) {
          MetadataKeyInjective(files[i].0, files[n].0);
        }
      }
    }
  }

  lemma MetadataKeyInjective(a: string, b: string)
    requires MetadataKey(a) == MetadataKey(b)
    ensures a == b
  {
    assert a == MetadataKey(a)[11..];
  }

  /** What `generate_configs` produces: each AHU's result, the files, the
      metadata, and the exit status. */
  datatype Generated = Generated(
    outs: seq<(Option<string>, Option<Json>)>,
    files: seq<(string, Json)>,
    metadata: ODict<Json>,
    exitCode: int)

  class RcxCgGenerator {
    const setup: RcxSetup
    var vavList: seq<string>
    var ahuList: seq<string>
    /** `unmapped_device_details` */
    var unmapped: Table
    /** `equip_id_point_topic_map` */
    var topicMap: map<string, map<string, string>>
    /** `equip_id_point_map` */
    var pointMap: map<string, map<string, string>>

    function State(): RState
      reads this
    {
      RState(vavList, ahuList, unmapped, topicMap, pointMap)
    }

    constructor (setup: RcxSetup)
      requires ValidSetup(setup)
      ensures this.setup == setup && State() == RState([], [], map[], map[], map[])
    {
      this.setup := setup;
      vavList := [];
      ahuList := [];
      unmapped := map[];
      topicMap := map[];
      pointMap := map[];
    }

    method GetAhuAndVavs() returns (groups: ODict<seq<string>>)
      modifies this
      ensures Grouped(groups, State()) == AhuAndVavs(old(State()), setup.equipRows)
    {
      ghost var g0 := Grouped([], State());
      var rows := setup.equipRows;
      groups := [];
      var i := 0;
      while i < |rows|
        invariant 0 <= i <= |rows|
        invariant Grouped(groups, State()) == GroupRows(g0, rows[..i])
      {
        groups := GroupRow(groups, i, g0);
        i := i + 1;
      }
      assert rows[..i] == rows;
      ahuList := ahuList + Keys(groups);
    }

    /** One row of the loop of `get_ahu_and_vavs`. */
    method GroupRow(before: ODict<seq<string>>, i: nat, ghost g0: Grouped) returns (after: ODict<seq<string>>)
      requires i < |setup.equipRows|
      requires Grouped(before, State()) == GroupRows(g0, setup.equipRows[..i])
      modifies this
      ensures Grouped(after, State()) == GroupRows(g0, setup.equipRows[..i + 1])
    {
      var r := setup.equipRows[i];
      after := before;
      if "vav" in r.tags {
        if HasAhuRef(r) {
          after := AppendAt(after, r.ahuRef.value, r.id);
        } else {
          unmapped := unmapped[r.id := NoAhuRefRecord()];
        }
        vavList := vavList + [r.id];
      }
      assert setup.equipRows[..i + 1][..i] == setup.equipRows[..i];
    }

    /** The loading loop of `get_point_name`. */
    method LoadPoints() returns (r: Result<()>)
      requires ValidSetup(setup)
      modifies this
      ensures var e := Load(setup, old(State()), setup.pointRows);
        (r.Ok? <==> e.Ok?) && (r.Ok? ==> State() == e.value)
    {
      var rows := setup.pointRows;
      ghost var st0 := State();
      var i := 0;
      while i < |rows|
        invariant 0 <= i <= |rows|
        invariant Load(setup, st0, rows[..i]) == Ok(State())
      {
        var ok := LoadRow(rows[i]);
        assert rows[..i + 1][..i] == rows[..i];
        if !ok {
          LoadPrefixErr(setup, st0, rows, i + 1);
          return Err(IndexErrorMsg);
        }
        i := i + 1;
      }
      assert rows[..i] == rows;
      r := Ok(());
    }

    /** One point row of the loading loop. */
    method LoadRow(row: PointRow) returns (ok: bool)
      requires ValidSetup(setup)
      modifies this
      ensures var e := LoadStep(setup, old(State()), row); (ok <==> e.Ok?) && (ok ==> State() == e.value)
    {
      if !HasMeta(row, setup.metaField) {
        return true;
      }
      if '.' !in row.id {
        return false;
      }
      var e := row.equipRef;
      var interested: seq<string>;
      if e in vavList {
        interested := TypesOf(setup.metaMap, VavKeys);
      } else if e in ahuList {
        interested := TypesOf(setup.metaMap, AhuKeys);
      } else {
        return true;
      }
      var pt := row.meta[setup.metaField];
      if pt in interested {
        topicMap := topicMap[e := EntryOf(topicMap, e)[pt := row.topic]];
        pointMap := pointMap[e := EntryOf(pointMap, e)];
        var name := LastSegment(row.topic);
        if name != "" {
          pointMap := pointMap[e := pointMap[e][pt := name]];
        } else if pt == DamperType(setup) {
          unmapped := unmapped[e := NoNameRecord(row.topic)];
        }
      }
      ok := true;
    }

    /** `get_point_name(equip_id, equip_type, key)` */
    method GetPointName(equipId: string, key: string) returns (r: Result<string>)
      requires ValidSetup(setup) && key in setup.metaMap
      modifies this
      ensures var e := PointName(setup, old(State()), equipId, key);
        (r.Ok? <==> e.Ok?) && (r.Ok? ==> r.value == e.value.value && State() == e.value.st)
    {
      if pointMap == map[] {
        var loaded := LoadPoints();
        if loaded.Err? {
          return Err(loaded.msg);
        }
      }
      if equipId !in pointMap {
        return Err(KeyErrorMsg(equipId));
      }
      var pt := setup.metaMap[key];
      r := Ok(if pt in pointMap[equipId] then pointMap[equipId][pt] else "");
    }
  
    /** The six AHU lookups of `generate_ahu_configs`. */
    method AhuPointNames(ahuId: string) returns (r: Result<seq<string>>)
      requires ValidSetup(setup)
      modifies this
      ensures var l := Loaded(setup, old(State()));
        (r.Ok? <==> l.Ok? && ahuId in l.value.pointMap) &&
        (r.Ok? ==> State() == l.value && r.value == AhuNames(setup.metaMap, l.value.pointMap[ahuId]))
    {
      ghost var st0 := State();
      var names: seq<string> := [];
      var i := 0;
      while i < |AhuKeys|
        invariant 0 <= i <= |AhuKeys| && |names| == i
        invariant i == 0 ==> State() == st0
        invariant i > 0 ==> (Loaded(setup, st0).Ok? && State() == Loaded(setup, st0).value && ahuId in pointMap &&
                             forall j :: 0 <= j < i ==> names[j] == NameIn(pointMap[ahuId], setup.metaMap[AhuKeys[j]]))
      {
        if i > 0 {
          PointNameLoaded(setup, State(), ahuId, AhuKeys[i]);
        }
        var n := GetPointName(ahuId, AhuKeys[i]);
        if n.Err? {
          return Err(n.msg);
        }
        names := names + [n.value];
        i := i + 1;
      }
      r := Ok(names);
    }

    /** The VAV loop of `generate_ahu_configs`: the subdevices and the names
        of each role, on a loaded point map. */
    method VavPointSets(vavs: seq<string>) returns (r: Result<(seq<string>, map<string, set<string>>)>)
      requires ValidSetup(setup) && pointMap != map[]
      modifies this
      ensures var e := VavSets(ReheatType(setup), DamperType(setup), old(pointMap), vavs);
        (r.Ok? <==> e.Ok?) && (r.Ok? ==> r.value == (SubDevices(vavs), e.value) && State() == old(State()))
    {
      var subs: seq<string> := [];
      var sets: map<string, set<string>> := map[];
      var i := 0;
      while i < |vavs|
        invariant 0 <= i <= |vavs|
        invariant State() == old(State())
        invariant subs == SubDevices(vavs[..i]) && VavSets(ReheatType(setup), DamperType(setup), old(pointMap), vavs[..i]) == Ok(sets)
      {
        SubDevicesStep(vavs, i);
        subs := subs + [NameFromId(vavs[i])];
        var next := VavPointNames(vavs, i, sets);
        if next.Err? {
          VavSetsPrefixErr(ReheatType(setup), DamperType(setup), old(pointMap), vavs, i + 1);
          return Err(next.msg);
        }
        sets := next.value;
        i := i + 1;
      }
      assert vavs[..i] == vavs;
      r := Ok((subs, sets));
    }

    /** The two role lookups of one VAV. */
    method VavPointNames(vavs: seq<string>, i: nat, sets: map<string, set<string>>) returns (r: Result<map<string, set<string>>>)
      requires ValidSetup(setup) && pointMap != map[] && i < |vavs|
      requires VavSets(ReheatType(setup), DamperType(setup), pointMap, vavs[..i]) == Ok(sets)
      modifies this
      ensures var e := VavSets(ReheatType(setup), DamperType(setup), old(pointMap), vavs[..i + 1]);
        (r.Ok? <==> e.Ok?) && (r.Ok? ==> r.value == e.value && State() == old(State()))
    {
      assert VavKeys[0] == "zone_reheat" && VavKeys[1] == "zone_damper";
      VavSetsStep(ReheatType(setup), DamperType(setup), pointMap, vavs, i);
      var v := vavs[i];
      PointNameLoaded(setup, State(), v, "zone_reheat");
      var reheat := GetPointName(v, "zone_reheat");
      if reheat.Err? {
        return Err(reheat.msg);
      }
      PointNameLoaded(setup, State(), v, "zone_damper");
      var damper := GetPointName(v, "zone_damper");
      r := Ok(AddNamed(AddNamed(sets, "zone_reheat", reheat.value), "zone_damper", damper.value));
    }

    /** The `topic_name` map of the missing-damper record. */
    method DamperTopics(vavs: seq<string>) returns (m: map<string, Json>)
      ensures m == VavTopics(topicMap, vavs)
    {
      m := map[];
      var i := 0;
      while i < |vavs|
        invariant 0 <= i <= |vavs|
        invariant forall v :: v in m <==> v in vavs[..i] && v in topicMap
        invariant forall v :: v in m ==> m[v] == StrMap(topicMap[v])
      {
        assert vavs[..i + 1] == vavs[..i] + [vavs[i]];
        if vavs[i] in topicMap {
          m := m[vavs[i] := StrMap(topicMap[vavs[i]])];
        }
        i := i + 1;
      }
      assert vavs[..i] == vavs;
    }

    method GenerateAhuConfigs(ahuId: string, vavs: seq<string>) returns (r: Result<(Option<string>, Option<Json>)>)
      requires ValidSetup(setup)
      modifies this
      ensures var e := AhuPlan(setup, old(State()), ahuId, vavs);
        (r.Ok? <==> e.Ok?) && (r.Ok? ==> State() == e.value.st && Returns(setup, e.value.value, vavs, r.value))
    {
      if ahuId == "" {
        return Ok((None, None));
      }
      if !RcxTemplate(setup.template) {
        return Err(TemplateErrorMsg);
      }
      var ahu := NameFromId(ahuId);
      var found := AhuPointNames(ahuId);
      if found.Err? {
        return Err(found.msg);
      }
      var names := found.value;
      ghost var st1 := State();
      if names[0] == "" && !Truthy(Mapped(setup.template, "fan_speed")) {
        unmapped := unmapped[ahuId := TopicRecord("ahu", NoFanMsg, TopicsOf(topicMap, ahuId))];
        return Ok((Some(ahu), None));
      }
      if names[1] == "" {
        unmapped := unmapped[ahuId := TopicRecord("ahu", NoDuctMsg, TopicsOf(topicMap, ahuId))];
      }
      var gathered := VavPointSets(vavs);
      if gathered.Err? {
        return Err(gathered.msg);
      }
      var (subs, sets) := gathered.value;
      var reheat := CollapseSet(SetOf(sets, "zone_reheat"));
      var damper := CollapseSet(SetOf(sets, "zone_damper"));
      if SetOf(sets, "zone_damper") == {} {
        var topics := DamperTopics(vavs);
        unmapped := unmapped[ahuId := TopicRecord("vav", NoDamperMsg, JObj(topics))];
      }
      assert State() == st1.(unmapped := Warned(st1, ahuId, vavs, names, sets));
      RealisesIntro(setup.template, ahu, vavs, names, sets, reheat, damper);
      r := Ok((Some(ahu), Some(Assemble(setup.template, ahu, subs, VavMapping(AhuMapping(names), reheat, damper)))));
    }

    method GenerateConfigs() returns (r: Result<Generated>)
      requires ValidSetup(setup)
      modifies this
      ensures var g := AhuAndVavs(old(State()), setup.equipRows); var e := Plans(setup, g.st, g.groups);
        (r.Ok? <==> e.Ok?) &&
        (r.Ok? ==>
          State() == e.value.st && |r.value.outs| == |g.groups| &&
          (forall i :: 0 <= i < |g.groups| ==> Returns(setup, e.value.value[i], g.groups[i].1, r.value.outs[i])) &&
          r.value.files == Files(r.value.outs) && r.value.metadata == Metadata(r.value.files) &&
          r.value.exitCode == ExitStatus(State().unmapped))
    {
      var groups := GetAhuAndVavs();
      r := GenerateAll(groups);
    }

    /** The loop of `generate_configs` over the grouped AHUs. */
    method GenerateAll(groups: ODict<seq<string>>) returns (r: Result<Generated>)
      requires ValidSetup(setup)
      modifies this
      ensures var e := Plans(setup, old(State()), groups);
        (r.Ok? <==> e.Ok?) &&
        (r.Ok? ==>
          State() == e.value.st && |r.value.outs| == |groups| &&
          (forall i :: 0 <= i < |groups| ==> Returns(setup, e.value.value[i], groups[i].1, r.value.outs[i])) &&
          r.value.files == Files(r.value.outs) && r.value.metadata == Metadata(r.value.files) &&
          r.value.exitCode == ExitStatus(State().unmapped))
    {
      ghost var st1 := State();
      ghost var plans: seq<Plan> := [];
      var outs: seq<(Option<string>, Option<Json>)> := [];
      var files: seq<(string, Json)> := [];
      var metadata: ODict<Json> := [];
      var i := 0;
      while i < |groups|
        invariant 0 <= i <= |groups| && |outs| == i
        invariant Plans(setup, st1, groups[..i]) == Ok(Step(plans, State()))
        invariant forall j :: 0 <= j < i ==> Returns(setup, plans[j], groups[j].1, outs[j])
        invariant files == Files(outs) && metadata == Metadata(files)
      {
        var out := AhuOutput(groups, i, st1, plans);
        if out.Err? {
          PlansPrefixErr(setup, st1, groups, i + 1);
          return Err(out.msg);
        }
        ghost var plans0 := plans;
        plans := Plans(setup, st1, groups[..i + 1]).value.value;
        files, metadata := Record(outs, files, metadata, out.value);
        var outs0 := outs;
        outs := outs + [out.value];
        forall j | 0 <= j <= i
          ensures Returns(setup, plans[j], groups[j].1, outs[j])
        {
          if j < i {
            assert plans[..i][j] == plans0[j] && outs[j] == outs0[j];
          }
        }
        i := i + 1;
      }
      assert groups[..i] == groups;
      r := Ok(Generated(outs, files, metadata, ExitStatus(unmapped)));
    }

    /** Writes one result's file, when it has one, and its metadata entry. */
    static method Record(outs: seq<(Option<string>, Option<Json>)>, files: seq<(string, Json)>, metadata: ODict<Json>,
                         o: (Option<string>, Option<Json>))
      returns (files2: seq<(string, Json)>, metadata2: ODict<Json>)
      requires files == Files(outs) && metadata == Metadata(files)
      ensures files2 == Files(outs + [o]) && metadata2 == Metadata(files2)
    {
      OutputSnoc(outs, o);
      files2, metadata2 := files, metadata;
      if Writes(o) {
        var ahu := o.0.value;
        files2 := files + [(ahu, o.1.value)];
        metadata2 := Put(metadata, MetadataKey(ahu), MetaEntry(ahu));
      }
    }

    /** One AHU of the loop of `generate_configs`. */
    method AhuOutput(groups: ODict<seq<string>>, i: nat, ghost st1: RState, ghost plans: seq<Plan>)
      returns (out: Result<(Option<string>, Option<Json>)>)
      requires ValidSetup(setup) && i < |groups|
      requires Plans(setup, st1, groups[..i]) == Ok(Step(plans, State()))
      modifies this
      ensures out.Ok? <==> Plans(setup, st1, groups[..i + 1]).Ok?
      ensures out.Ok? ==> var p := Plans(setup, st1, groups[..i + 1]).value;
        p.st == State() && |p.value| == i + 1 && p.value[..i] == plans && Returns(setup, p.value[i], groups[i].1, out.value)
    {
      PlansStep(setup, st1, groups, i);
      out := GenerateAhuConfigs(groups[i].0, groups[i].1);
      if out.Ok? {
        assert (plans + [AhuPlan(setup, old(State()), groups[i].0, groups[i].1).value.value])[..i] == plans;
      }
    }
  }
}
