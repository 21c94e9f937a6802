/** The src airside economizer generator over the two JSON metadata
    documents (`JsonAirsideEconomizerConfigGenerator`), with the
    `generate_configs` and `generate_ahu_configs` of the economizer base.
    `get_ahus` appends the ids of `ahu`-tagged rows to `ahu_list`. The first
    point lookup, and every lookup while the point map is still empty,
    flattens the meta values of interest and loads the point document into
    a map of AHU to meta value to point name. A list role takes the first
    candidate with a name. A Python exception is an `Err`; what the object
    holds after one is left open. */
module EconSrcJson {
  import opened Wrappers
  import opened Json
  import opened Names
  import opened Drivers
  import opened Rows
  import opened ODicts
  import opened Rcx
  import opened Econ

  /** The config as `__init__` leaves it: the template with its `device`
      set, `point_meta_map`, `point_meta_field`, and the rows of the two
      documents. */
  datatype JSetup = JSetup(
    template: Json,
    metaMap: MetaMap,
    metaField: string,
    equipRows: seq<EquipRow>,
    pointRows: seq<PointRow>)

  /** A dictionary's keys are unique, and the template is a dictionary. */
  predicate ValidSetup(s: JSetup) {
    UniqueKeys(s.metaMap) && s.template.JObj?
  }

  /** `__init__`: the building and campus (from the site id when not
      configured) and the template's `device` entry. */
  function SetupOf(siteId: string, building: string, campus: string, template: Json,
                   metaMap: MetaMap, metaField: string,
                   equipRows: seq<EquipRow>, pointRows: seq<PointRow>): (r: Result<JSetup>)
    requires UniqueKeys(metaMap)
    ensures r.Ok? <==> Location(siteId, building, campus).Ok? && template.JObj?
    ensures r.Ok? ==> ValidSetup(r.value)
    ensures r.Ok? ==> var (b, c) := Location(siteId, building, campus).value;
      r.value == JSetup(InitTemplate(template, c, b), metaMap, metaField, equipRows, pointRows)
  {
    var loc :- Location(siteId, building, campus);
    if !template.JObj? then Err("TypeError: config_template is not a dictionary")
    else Ok(JSetup(InitTemplate(template, loc.1, loc.0), metaMap, metaField, equipRows, pointRows))
  }

  /** The fields the methods update: `ahu_list`, `interested_point_types`,
      `equip_id_point_map` (AHU to meta value to point name),
      `equip_id_point_topic_map` (AHU to meta value to topic) and
      `unmapped_device_details`. */
  datatype JState = JState(
    ahuList: seq<string>,
    interested: seq<string>,
    pointMap: map<string, map<string, string>>,
    topicMap: map<string, map<string, string>>,
    unmapped: Table)

  datatype Step<T> = Step(value: T, st: JState)

  // ----- get_ahus -----

  /** The ids of the `ahu`-tagged rows, in row order. */
  function AhuIds(rows: seq<EquipRow>): seq<string>
    decreases |rows|
  {
    if rows == [] then []
    else
      var r := rows[|rows| - 1];
      AhuIds(rows[..|rows| - 1]) + (if "ahu" in r.tags then [r.id] else [])
  }

  /** An id is listed exactly when some `ahu`-tagged row has it, and no
      more ids are listed than there are rows. */
  lemma {:induction false} AhuIdsSpec(rows: seq<EquipRow>)
    ensures forall x :: x in AhuIds(rows) <==> exists i :: 0 <= i < |rows| && "ahu" in rows[i].tags && rows[i].id == x
    ensures |AhuIds(rows)| <= |rows|
    decreases |rows|
  {
    if rows != [] {
      var n := |rows| - 1;
      AhuIdsSpec(rows[..n]);
      forall x
        ensures x in AhuIds(rows) <==> exists i :: 0 <= i < |rows| && "ahu" in rows[i].tags && rows[i].id == x
      {
        if x in AhuIds(rows[..n]) {
          var i :| 0 <= i < n && "ahu" in rows[..n][i].tags && rows[..n][i].id == x;
          assert rows[i] == rows[..n][i];
        }
        if exists i :: 0 <= i < |rows| && "ahu" in rows[i].tags && rows[i].id == x {
          var i :| 0 <= i < |rows| && "ahu" in rows[i].tags && rows[i].id == x;
          if i < n {
            assert rows[..n][i] == rows[i];
          }
        }
      }
    }
  }

  // ----- loading the point document -----

  /** A row with a meta field reads its id's second-to-last `.` piece,
      which needs a `.`. */
  predicate RowLoads(s: JSetup, p: PointRow) {
    HasMeta(p, s.metaField) ==> '.' in p.id
  }

  /** A row that creates its AHU's entry, and one that also records its
      topic and point name. */
  predicate Enters(s: JSetup, st: JState, p: PointRow) {
    HasMeta(p, s.metaField) && p.equipRef in st.ahuList
  }

  predicate Stores(s: JSetup, st: JState, p: PointRow) {
    Enters(s, st, p) && p.meta[s.metaField] in st.interested
  }

  /** The row is about equipment `e` and meta value `pt`. */
  predicate Slot(s: JSetup, p: PointRow, e: string, pt: string) {
    p.equipRef == e && HasMeta(p, s.metaField) && p.meta[s.metaField] == pt
  }

  /** One point row of the loading loop. */
  function LoadStep(s: JSetup, st: JState, p: PointRow): Result<JState> {
    if !HasMeta(p, s.metaField) then Ok(st)
    else if '.' !in p.id then Err(IndexErrorMsg)
    else if p.equipRef !in st.ahuList then Ok(st)
    else
      var e := p.equipRef;
      var pt := p.meta[s.metaField];
      var names := EntryOf(st.pointMap, e);
      if pt !in st.interested then Ok(st.(pointMap := st.pointMap[e := names]))
      else Ok(st.(topicMap := st.topicMap[e := EntryOf(st.topicMap, e)[pt := p.topic]],
                  pointMap := st.pointMap[e := names[pt := PointNameFromTopic(p.topic)]]))
  }

  function Load(s: JSetup, st: JState, rows: seq<PointRow>): Result<JState>
    decreases |rows|
  {
    if rows == [] then Ok(st)
    else
      var n := |rows| - 1;
      var p :- Load(s, st, rows[..n]);
      LoadStep(s, p, rows[n])
  }

  /** A row fails exactly when it has a meta field but no `.` in its id.
      It keeps the lists and the unmapped table; a row of an AHU adds the
      AHU to the point map, and one of interest also to the topic map. */
  lemma LoadStepSpec(s: JSetup, st: JState, p: PointRow)
    ensures LoadStep(s, st, p).Ok? <==> RowLoads(s, p)
    ensures LoadStep(s, st, p).Ok? ==> var st2 := LoadStep(s, st, p).value; var e := p.equipRef;
      st2.ahuList == st.ahuList && st2.interested == st.interested && st2.unmapped == st.unmapped &&
      st2.pointMap.Keys == st.pointMap.Keys + (if Enters(s, st, p) then {e} else {}) &&
      st2.topicMap.Keys == st.topicMap.Keys + (if Stores(s, st, p) then {e} else {})
    ensures LoadStep(s, st, p).Ok? ==> LoadStepSlots(s, st, p, LoadStep(s, st, p).value)
  {
    if LoadStep(s, st, p).Ok? {
      LoadStepSlotsHold(s, st, p);
    }
  }

  /** A row of interest records its topic, and the point name taken from
      it, under its AHU and meta value; every other slot keeps its value. */
  ghost predicate LoadStepSlots(s: JSetup, st: JState, p: PointRow, st2: JState) {
    (forall k, pt :: At(st2.topicMap, k, pt) ==
      if Stores(s, st, p) && Slot(s, p, k, pt) then Some(p.topic) else At(st.topicMap, k, pt)) &&
    (forall k, pt :: At(st2.pointMap, k, pt) ==
      if Stores(s, st, p) && Slot(s, p, k, pt) then Some(PointNameFromTopic(p.topic)) else At(st.pointMap, k, pt))
  }

  lemma LoadStepSlotsHold(s: JSetup, st: JState, p: PointRow)
    requires LoadStep(s, st, p).Ok?
    ensures LoadStepSlots(s, st, p, LoadStep(s, st, p).value)
  {
    if Stores(s, st, p) {
      LoadStepStores(s, st, p);
    } else if Enters(s, st, p) {
      LoadStepEnters(s, st, p);
    }
  }

  lemma LoadStepStores(s: JSetup, st: JState, p: PointRow)
    requires LoadStep(s, st, p).Ok? && Stores(s, st, p)
    ensures var e := p.equipRef; var pt := p.meta[s.metaField]; var st2 := LoadStep(s, st, p).value;
      st2.topicMap == st.topicMap[e := EntryOf(st.topicMap, e)[pt := p.topic]] &&
      st2.pointMap == st.pointMap[e := EntryOf(st.pointMap, e)[pt := PointNameFromTopic(p.topic)]]
  {
  }

  lemma LoadStepEnters(s: JSetup, st: JState, p: PointRow)
    requires LoadStep(s, st, p).Ok? && Enters(s, st, p) && !Stores(s, st, p)
    ensures var e := p.equipRef; var st2 := LoadStep(s, st, p).value;
      st2.topicMap == st.topicMap && st2.pointMap == st.pointMap[e := EntryOf(st.pointMap, e)]
  {
  }

  /** Loading fails exactly when some row fails, and keeps the lists and
      the unmapped table. */
  lemma {:induction false} LoadOk(s: JSetup, st: JState, rows: seq<PointRow>)
    ensures Load(s, st, rows).Ok? <==> forall i :: 0 <= i < |rows| ==> RowLoads(s, rows[i])
    ensures Load(s, st, rows).Ok? ==> var st2 := Load(s, st, rows).value;
      st2.ahuList == st.ahuList && st2.interested == st.interested && st2.unmapped == st.unmapped
    decreases |rows|
  {
    if rows != [] {
      var n := |rows| - 1;
      LoadOk(s, st, rows[..n]);
      assert forall i :: 0 <= i < n ==> rows[..n][i] == rows[i];
      if Load(s, st, rows[..n]).Ok? {
        LoadStepSpec(s, Load(s, st, rows[..n]).value, rows[n]);
      }
    }
  }

  lemma LoadSnoc(s: JSetup, st: JState, rows: seq<PointRow>)
    requires rows != [] && Load(s, st, rows).Ok?
    ensures var n := |rows| - 1;
      Load(s, st, rows[..n]).Ok? && Load(s, st, rows) == LoadStep(s, Load(s, st, rows[..n]).value, rows[n])
  {
  }

  /** The AHUs the point map holds after loading: those it held and those
      of the rows with a meta field. */
  lemma {:induction false} LoadKeys(s: JSetup, st: JState, rows: seq<PointRow>)
    requires Load(s, st, rows).Ok?
    ensures var st2 := Load(s, st, rows).value;
      forall e :: e in st2.pointMap <==> e in st.pointMap || exists i :: 0 <= i < |rows| && Enters(s, st, rows[i]) && rows[i].equipRef == e
    decreases |rows|
  {
    if rows != [] {
      var n := |rows| - 1;
      LoadSnoc(s, st, rows);
      LoadKeys(s, st, rows[..n]);
      var st1 := Load(s, st, rows[..n]).value;
      LoadOk(s, st, rows[..n]);
      LoadStepSpec(s, st1, rows[n]);
      assert forall i :: 0 <= i < n ==> rows[..n][i] == rows[i];
      assert forall p :: Enters(s, st1, p) == Enters(s, st, p);
    }
  }

  /** The last row of interest for an AHU and meta value decides its topic
      and its point name; a later row overwrites an earlier one. */
  lemma {:induction false} LoadLast(s: JSetup, st: JState, rows: seq<PointRow>, i: nat)
    requires Load(s, st, rows).Ok?
    requires i < |rows| && Stores(s, st, rows[i])
    requires var e := rows[i].equipRef; var pt := rows[i].meta[s.metaField];
      forall j :: i < j < |rows| ==> !(Stores(s, st, rows[j]) && Slot(s, rows[j], e, pt))
    ensures var st2 := Load(s, st, rows).value; var e := rows[i].equipRef; var pt := rows[i].meta[s.metaField];
      At(st2.topicMap, e, pt) == Some(rows[i].topic) && At(st2.pointMap, e, pt) == Some(PointNameFromTopic(rows[i].topic))
    decreases |rows|
  {
    var n := |rows| - 1;
    LoadSnoc(s, st, rows);
    var st1 := Load(s, st, rows[..n]).value;
    LoadOk(s, st, rows[..n]);
    LoadStepSpec(s, st1, rows[n]);
    assert forall p :: Stores(s, st1, p) == Stores(s, st, p);
    if i < n {
      assert rows[..n][i] == rows[i];
      assert forall j :: i < j < n ==> rows[..n][j] == rows[j];
      LoadLast(s, st, rows[..n], i);
    }
  }

  /** A slot no row of interest names keeps what it held: a meta value not
      of interest is never stored. */
  lemma {:induction false} LoadUntouched(s: JSetup, st: JState, rows: seq<PointRow>, e: string, pt: string)
    requires Load(s, st, rows).Ok?
    requires forall j :: 0 <= j < |rows| ==> !(Stores(s, st, rows[j]) && Slot(s, rows[j], e, pt))
    ensures var st2 := Load(s, st, rows).value;
      At(st2.topicMap, e, pt) == At(st.topicMap, e, pt) && At(st2.pointMap, e, pt) == At(st.pointMap, e, pt)
    decreases |rows|
  {
    if rows != [] {
      var n := |rows| - 1;
      LoadSnoc(s, st, rows);
      var st1 := Load(s, st, rows[..n]).value;
      LoadOk(s, st, rows[..n]);
      LoadStepSpec(s, st1, rows[n]);
      assert forall p :: Stores(s, st1, p) == Stores(s, st, p);
      assert forall j :: 0 <= j < n ==> rows[..n][j] == rows[j];
      LoadUntouched(s, st, rows[..n], e, pt);
    }
  }

  lemma {:induction false} LoadPrefixErr(s: JSetup, st: JState, rows: seq<PointRow>, k: nat)
    requires k <= |rows| && Load(s, st, rows[..k]).Err?
    ensures Load(s, st, rows).Err?
    decreases |rows| - k
  {
    if k < |rows| {
      assert rows[..k + 1][..k] == rows[..k];
      LoadPrefixErr(s, st, rows, k + 1);
    } else {
      assert rows[..k] == rows;
    }
  }

  // ----- get_point_name -----

  /** The lookup's loading: while the point map is empty, extend the types
      of interest and load the document. */
  function Loaded(s: JSetup, st: JState): Result<JState> {
    if st.pointMap == map[] then Load(s, st.(interested := st.interested + Flattened(s.metaMap)), s.pointRows)
    else Ok(st)
  }

  /** The first candidate in order with a non-empty name, `""` if none. */
  function FirstNamed(names: map<string, string>, ts: seq<string>): string
    decreases |ts|
  {
    if ts == [] then ""
    else if NameIn(names, ts[0]) != "" then NameIn(names, ts[0])
    else FirstNamed(names, ts[1..])
  }

  /** `equip_id_point_map[e].get(...)` for a string role, the first-match
      loop for a list role. */
  function Lookup(names: map<string, string>, v: MetaValue): string {
    match v
    case Single(t) => NameIn(names, t)
    case Several(ts) => FirstNamed(names, ts)
  }

  /** First match wins: the result is empty exactly when every candidate's
      name is, and otherwise it is the name of the first candidate that has
      one. A string role is a list of one candidate. */
  lemma {:induction false} FirstNamedSpec(names: map<string, string>, ts: seq<string>)
    ensures FirstNamed(names, ts) == "" <==> forall i :: 0 <= i < |ts| ==> NameIn(names, ts[i]) == ""
    ensures forall i :: 0 <= i < |ts| && NameIn(names, ts[i]) != "" && (forall j :: 0 <= j < i ==> NameIn(names, ts[j]) == "") ==>
      FirstNamed(names, ts) == NameIn(names, ts[i])
    decreases |ts|
  {
    if ts != [] {
      FirstNamedSpec(names, ts[1..]);
      assert forall i :: 0 < i < |ts| ==> ts[1..][i - 1] == ts[i];
      forall i | 0 < i < |ts| && NameIn(names, ts[i]) != "" && (forall j :: 0 <= j < i ==> NameIn(names, ts[j]) == "")
        ensures FirstNamed(names, ts) == NameIn(names, ts[i])
      {
        assert forall j :: 0 <= j < i - 1 ==> NameIn(names, ts[1..][j]) == "" by {
          forall j | 0 <= j < i - 1 ensures NameIn(names, ts[1..][j]) == "" {
            assert ts[1..][j] == ts[j + 1];
          }
        }
      }
    }
  }

  lemma LookupIsFirstNamed(names: map<string, string>, v: MetaValue)
    ensures Lookup(names, v) == FirstNamed(names, Candidates(v))
  {
    if v.Single? {
      assert [v.t][1..] == [];
    }
  }

  /** `get_point_name(equip_id, "ahu", key)`: the name of the key's role for
      an AHU of the point map; a `KeyError` for equipment the map does not
      hold. */
  function PointName(s: JSetup, st: JState, e: string, key: string): Result<Step<string>>
    requires key in Keys(s.metaMap)
  {
    var st1 :- Loaded(s, st);
    GetSome(s.metaMap, key);
    if e !in st1.pointMap then Err(KeyErrorMsg(e))
    else Ok(Step(Lookup(st1.pointMap[e], Get(s.metaMap, key).value), st1))
  }

  /** A lookup after a successful one loads nothing more. */
  lemma PointNameAgain(s: JSetup, st: JState, e: string, key: string, key2: string)
    requires key in Keys(s.metaMap) && key2 in Keys(s.metaMap) && PointName(s, st, e, key).Ok?
    ensures var st1 := PointName(s, st, e, key).value.st;
      Loaded(s, st1) == Ok(st1) && PointName(s, st1, e, key2).Ok? && PointName(s, st1, e, key2).value.st == st1
  {
  }

  /** The names of some keys of one AHU, in key order, up to the first
      failing lookup. */
  function KeyNames(s: JSetup, st: JState, e: string, keys: seq<string>): (r: Result<Step<seq<string>>>)
    requires forall i :: 0 <= i < |keys| ==> keys[i] in Keys(s.metaMap)
    ensures r.Ok? ==> |r.value.value| == |keys|
    decreases |keys|
  {
    if keys == [] then Ok(Step([], st))
    else
      var n := |keys| - 1;
      var p :- KeyNames(s, st, e, keys[..n]);
      var r :- PointName(s, p.st, e, keys[n]);
      Ok(Step(p.value + [r.value], r.st))
  }

  /** The lookups of every key of `point_meta_map` in turn, on one point map. */
  function Lookups(m: MetaMap, names: map<string, string>): (r: seq<string>)
    ensures |r| == |m| == |Keys(m)| && forall i :: 0 <= i < |m| ==> r[i] == Lookup(names, m[i].1)
  {
    KeysLen(m);
    seq(|m|, i requires 0 <= i < |m| => Lookup(names, m[i].1))
  }

  /** `name` is the lookup of `key`'s role in an AHU's names. */
  predicate LookedUp(s: JSetup, names: map<string, string>, key: string, name: string) {
    Get(s.metaMap, key).Some? && name == Lookup(names, Get(s.metaMap, key).value)
  }

  /** Without keys nothing is looked up. Otherwise the lookups succeed
      exactly when the first one's loading does and the AHU is in the
      loaded map; the state is then that of the loading, and each name is
      the key's lookup in it. */
  lemma {:induction false} KeyNamesSpec(s: JSetup, st: JState, e: string, keys: seq<string>)
    requires forall i :: 0 <= i < |keys| ==> keys[i] in Keys(s.metaMap)
    ensures keys == [] ==> KeyNames(s, st, e, keys) == Ok(Step([], st))
    ensures keys != [] ==>
      (KeyNames(s, st, e, keys).Ok? <==> Loaded(s, st).Ok? && e in Loaded(s, st).value.pointMap)
    ensures keys != [] && KeyNames(s, st, e, keys).Ok? ==> var st1 := Loaded(s, st).value; var r := KeyNames(s, st, e, keys).value;
      r.st == st1 && forall i :: 0 <= i < |keys| ==> LookedUp(s, st1.pointMap[e], keys[i], r.value[i])
    decreases |keys|
  {
    if keys != [] {
      var n := |keys| - 1;
      GetSome(s.metaMap, keys[n]);
      var p := KeyNames(s, st, e, keys[..n]);
      if n == 0 {
        assert keys[..n] == [];
      } else {
        assert forall i :: 0 <= i < n ==> keys[..n][i] == keys[i];
        KeyNamesSpec(s, st, e, keys[..n]);
        if p.Ok? {
          var st1 := Loaded(s, st).value;
          assert p.value.st == st1 && Loaded(s, st1) == Ok(st1);
          assert PointName(s, st1, e, keys[n]) == Ok(Step(Lookup(st1.pointMap[e], Get(s.metaMap, keys[n]).value), st1));
        }
      }
    }
  }

  lemma KeyNamesStep(s: JSetup, st: JState, e: string, keys: seq<string>, i: nat)
    requires forall j :: 0 <= j < |keys| ==> keys[j] in Keys(s.metaMap)
    requires i < |keys| && KeyNames(s, st, e, keys[..i]).Ok?
    ensures var p := KeyNames(s, st, e, keys[..i]).value; var r := PointName(s, p.st, e, keys[i]);
      KeyNames(s, st, e, keys[..i + 1]) == if r.Err? then Err(r.msg) else Ok(Step(p.value + [r.value.value], r.value.st))
  {
    assert keys[..i + 1][..i] == keys[..i];
  }

  lemma {:induction false} KeyNamesPrefixErr(s: JSetup, st: JState, e: string, keys: seq<string>, k: nat)
    requires forall j :: 0 <= j < |keys| ==> keys[j] in Keys(s.metaMap)
    requires k <= |keys| && KeyNames(s, st, e, keys[..k]).Err?
    ensures KeyNames(s, st, e, keys).Err?
    decreases |keys| - k
  {
    if k < |keys| {
      assert keys[..k + 1][..k] == keys[..k];
      KeyNamesPrefixErr(s, st, e, keys, k + 1);
    } else {
      assert keys[..k] == keys;
    }
  }

  // ----- generate_ahu_configs (base) -----

  /** `generate_ahu_configs(ahu_id)` without the AHU's short name: a
      `KeyError` for a template without `arguments.point_mapping`; then the
      lookup of every key, and the outcome of the base. */
  function AhuOutcome(s: JSetup, st: JState, ahuId: string): Result<Step<Option<Json>>> {
    if !RcxTemplate(s.template) then Err(TemplateErrorMsg)
    else
      var keys := Keys(s.metaMap);
      var r :- KeyNames(s, st, ahuId, keys);
      var (c, u) := Outcome(s.template, ahuId, keys, r.value, r.st.topicMap, r.st.unmapped);
      Ok(Step(c, r.st.(unmapped := u)))
  }

  /** The call fails exactly for a template without a point mapping, or,
      with point keys, when loading fails or the AHU has no point row with
      a meta field. Otherwise, with point keys, it is the base's outcome on
      the loaded state, whose names are the lookups of every key in the
      AHU's entry. */
  lemma AhuOutcomeSpec(s: JSetup, st: JState, ahuId: string)
    requires ValidSetup(s)
    ensures AhuOutcome(s, st, ahuId).Err? <==>
      !RcxTemplate(s.template) || (s.metaMap != [] && (Loaded(s, st).Err? || ahuId !in Loaded(s, st).value.pointMap))
    ensures AhuOutcome(s, st, ahuId).Ok? && s.metaMap != [] ==>
      var st1 := Loaded(s, st).value; var names := Lookups(s.metaMap, st1.pointMap[ahuId]);
      var (c, u) := Outcome(s.template, ahuId, Keys(s.metaMap), names, st1.topicMap, st1.unmapped);
      AhuOutcome(s, st, ahuId).value == Step(c, st1.(unmapped := u))
  {
    var keys := Keys(s.metaMap);
    KeysLen(s.metaMap);
    KeyNamesSpec(s, st, ahuId, keys);
    if RcxTemplate(s.template) && s.metaMap != [] && KeyNames(s, st, ahuId, keys).Ok? {
      var st1 := Loaded(s, st).value;
      forall i | 0 <= i < |keys|
        ensures KeyNames(s, st, ahuId, keys).value.value[i] == Lookups(s.metaMap, st1.pointMap[ahuId])[i]
      {
        GetEntry(s.metaMap, i);
      }
      assert KeyNames(s, st, ahuId, keys).value.value == Lookups(s.metaMap, st1.pointMap[ahuId]);
    }
  }

  /** The outcome once every key's name is known. */
  lemma AhuOutcomeOf(s: JSetup, st: JState, ahuId: string, names: seq<string>, st2: JState)
    requires RcxTemplate(s.template) && KeyNames(s, st, ahuId, Keys(s.metaMap)) == Ok(Step(names, st2))
    ensures var (c, u) := Outcome(s.template, ahuId, Keys(s.metaMap), names, st2.topicMap, st2.unmapped);
      AhuOutcome(s, st, ahuId) == Ok(Step(c, st2.(unmapped := u)))
  {
  }

  // ----- generate_configs (base) -----

  /** The loop of `generate_configs` over the AHU ids: each AHU's short name
      and config, up to the first failure. */
  function Runs(s: JSetup, st: JState, ids: seq<string>): (r: Result<Step<seq<(string, Option<Json>)>>>)
    ensures r.Ok? ==> |r.value.value| == |ids|
    decreases |ids|
  {
    if ids == [] then Ok(Step([], st))
    else
      var o :- AhuOutcome(s, st, ids[0]);
      var rest :- Runs(s, o.st, ids[1..]);
      Ok(Step([(NameFromId(ids[0]), o.value)] + rest.value, rest.st))
  }

  /** The outputs are the AHUs' short names, in order. */
  lemma {:induction false} RunsNames(s: JSetup, st: JState, ids: seq<string>)
    requires Runs(s, st, ids).Ok?
    ensures forall i :: 0 <= i < |ids| ==> Runs(s, st, ids).value.value[i].0 == NameFromId(ids[i])
    decreases |ids|
  {
    if ids != [] {
      var o := AhuOutcome(s, st, ids[0]).value;
      RunsNames(s, o.st, ids[1..]);
      assert forall i :: 0 < i < |ids| ==> ids[1..][i - 1] == ids[i];
    }
  }

  /** The outputs of the AHUs done so far in front of the rest of the loop;
      a failure in the rest is the loop's failure. */
  function Then(outs: seq<(string, Option<Json>)>, r: Result<Step<seq<(string, Option<Json>)>>>): Result<Step<seq<(string, Option<Json>)>>> {
    if r.Err? then r else Ok(Step(outs + r.value.value, r.value.st))
  }

  lemma RunsFront(s: JSetup, st: JState, ids: seq<string>, i: nat)
    requires i < |ids|
    ensures var o := AhuOutcome(s, st, ids[i]);
      Runs(s, st, ids[i..]) == if o.Err? then Err(o.msg) else Then([(NameFromId(ids[i]), o.value.value)], Runs(s, o.value.st, ids[i + 1..]))
  {
    assert ids[i..][0] == ids[i] && ids[i..][1..] == ids[i + 1..];
  }

  lemma ThenEnds(outs: seq<(string, Option<Json>)>, st: JState, r: Result<Step<seq<(string, Option<Json>)>>>)
    ensures Then([], r) == r
    ensures Then(outs, Ok(Step([], st))) == Ok(Step(outs, st))
  {
    if r.Ok? {
      assert [] + r.value.value == r.value.value;
    }
    assert outs + [] == outs;
  }

  lemma ThenThen(outs: seq<(string, Option<Json>)>, o: (string, Option<Json>), r: Result<Step<seq<(string, Option<Json>)>>>)
    ensures Then(outs, Then([o], r)) == Then(outs + [o], r)
  {
    if r.Ok? {
      assert outs + ([o] + r.value.value) == (outs + [o]) + r.value.value;
    }
  }

  /** `generate_configs`: `get_ahus`, then every AHU in turn; the files
      written and the exit status. */
  function Generate(s: JSetup, st: JState): Result<Step<(seq<(string, Json)>, int)>> {
    var st0 := st.(ahuList := st.ahuList + AhuIds(s.equipRows));
    var r :- Runs(s, st0, st0.ahuList);
    Ok(Step((Files(r.value), ExitStatus(r.st.unmapped)), r.st))
  }

  class JsonEconGenerator {
    const setup: JSetup
    var ahuList: seq<string>
    /** `interested_point_types` */
    var interested: seq<string>
    /** `equip_id_point_map` */
    var pointMap: map<string, map<string, string>>
    /** `equip_id_point_topic_map` */
    var topicMap: map<string, map<string, string>>
    /** `unmapped_device_details` */
    var unmapped: Table

    function State(): JState
      reads this
    {
      JState(ahuList, interested, pointMap, topicMap, unmapped)
    }

    constructor (setup: JSetup)
      requires ValidSetup(setup)
      ensures this.setup == setup && State() == JState([], [], map[], map[], map[])
    {
      this.setup := setup;
      ahuList := [];
      interested := [];
      pointMap := map[];
      topicMap := map[];
      unmapped := map[];
    }

    method GetAhus() returns (ids: seq<string>)
      modifies this
      ensures State() == old(State()).(ahuList := old(ahuList) + AhuIds(setup.equipRows)) && ids == ahuList
    {
      var rows := setup.equipRows;
      var i := 0;
      while i < |rows|
        invariant 0 <= i <= |rows|
        invariant State() == old(State()).(ahuList := old(ahuList) + AhuIds(rows[..i]))
      {
        assert rows[..i + 1][..i] == rows[..i];
        if "ahu" in rows[i].tags {
          ahuList := ahuList + [rows[i].id];
        }
        i := i + 1;
      }
      assert rows[..i] == rows;
      ids := ahuList;
    }

    /** The flattening loop over the values of `point_meta_map`. */
    method ExtendInterested()
      modifies this
      ensures State() == old(State()).(interested := old(interested) + Flattened(setup.metaMap))
    {
      var m := setup.metaMap;
      var i := 0;
      while i < |m|
        invariant 0 <= i <= |m|
        invariant State() == old(State()).(interested := old(interested) + Flattened(m[..i]))
      {
        assert m[..i + 1][..i] == m[..i];
        match m[i].1 {
          case Single(t) =>
            interested := interested + [t];
          case Several(ts) =>
            interested := interested + ts;
        }
        i := i + 1;
      }
      assert m[..i] == m;
    }

    /** The loading loop of `get_point_name`. */
    method LoadPoints() returns (r: Result<()>)
      modifies this
      ensures var e := Load(setup, old(State()), setup.pointRows);
        (r.Ok? <==> e.Ok?) && (r.Ok? ==> State() == e.value)
    {
      var rows := setup.pointRows;
      ghost var st0 := State();
      var i := 0;
      while i < |rows|
        invariant 0 <= i <= |rows|
        invariant Load(setup, st0, rows[..i]) == Ok(State())
      {
        var ok := LoadRow(rows[i]);
        assert rows[..i + 1][..i] == rows[..i];
        if !ok {
          LoadPrefixErr(setup, st0, rows, i + 1);
          return Err(IndexErrorMsg);
        }
        i := i + 1;
      }
      assert rows[..i] == rows;
      r := Ok(());
    }

    /** One point row of the loading loop. */
    method LoadRow(row: PointRow) returns (ok: bool)
      modifies this
      ensures var e := LoadStep(setup, old(State()), row); (ok <==> e.Ok?) && (ok ==> State() == e.value)
    {
      if !HasMeta(row, setup.metaField) {
        return true;
      }
      if '.' !in row.id {
        return false;
      }
      var e := row.equipRef;
      var pt := row.meta[setup.metaField];
      if e in ahuList {
        pointMap := pointMap[e := EntryOf(pointMap, e)];
        if pt in interested {
          topicMap := topicMap[e := EntryOf(topicMap, e)[pt := row.topic]];
          pointMap := pointMap[e := pointMap[e][pt := PointNameFromTopic(row.topic)]];
        }
      }
      ok := true;
    }

    /** The first-match loop over the candidates of a list role. */
    static method FirstNamedIn(names: map<string, string>, ts: seq<string>) returns (name: string)
      ensures name == FirstNamed(names, ts)
    {
      name := "";
      var i := 0;
      while i < |ts|
        invariant 0 <= i <= |ts| && name == ""
        invariant FirstNamed(names, ts) == FirstNamed(names, ts[i..])
      {
        assert ts[i..][0] == ts[i] && ts[i..][1..] == ts[i + 1..];
        name := NameIn(names, ts[i]);
        if name != "" {
          return;
        }
        i := i + 1;
      }
    }

    /** `get_point_name(equip_id, "ahu", key)` */
    method GetPointName(equipId: string, key: string) returns (r: Result<string>)
      requires key in Keys(setup.metaMap)
      modifies this
      ensures var e := PointName(setup, old(State()), equipId, key);
        (r.Ok? <==> e.Ok?) && (r.Ok? ==> r.value == e.value.value && State() == e.value.st)
    {
      if pointMap == map[] {
        ExtendInterested();
        var loaded := LoadPoints();
        if loaded.Err? {
          return Err(loaded.msg);
        }
      }
      GetSome(setup.metaMap, key);
      var v := Get(setup.metaMap, key).value;
      if equipId !in pointMap {
        return Err(KeyErrorMsg(equipId));
      }
      var names := pointMap[equipId];
      var name: string;
      match v {
        case Single(t) =>
          name := NameIn(names, t);
        case Several(ts) =>
          name := FirstNamedIn(names, ts);
      }
      r := Ok(name);
    }

    /** `generate_ahu_configs(ahu_id)`: the point mapping is filled, and the
        missing keys collected, one key at a time. */
    method GenerateAhuConfigs(ahuId: string) returns (r: Result<(string, Option<Json>)>)
      requires ValidSetup(setup)
      modifies this
      ensures var e := AhuOutcome(setup, old(State()), ahuId);
        (r.Ok? <==> e.Ok?) && (r.Ok? ==> r.value == (NameFromId(ahuId), e.value.value) && State() == e.value.st)
    {
      if !RcxTemplate(setup.template) {
        return Err(TemplateErrorMsg);
      }
      var t := setup.template;
      var ahu := NameFromId(ahuId);
      var keys := Keys(setup.metaMap);
      ghost var st0 := State();
      ghost var names: seq<string> := [];
      var config := Blank(t, ahu);
      var missing: seq<string> := [];
      var i := 0;
      while i < |keys|
        invariant 0 <= i <= |keys|
        invariant KeyNames(setup, st0, ahuId, keys[..i]) == Ok(Step(names, State()))
        invariant |names| == i
        invariant config == Assemble(t, ahu, [], Found(keys[..i], names)) && missing == Missing(keys[..i], names)
      {
        KeyNamesStep(setup, st0, ahuId, keys, i);
        var name := GetPointName(ahuId, keys[i]);
        if name.Err? {
          KeyNamesPrefixErr(setup, st0, ahuId, keys, i + 1);
          return Err(name.msg);
        }
        ConfigStep(t, ahu, keys, names, i, name.value);
        if name.value != "" {
          config := SetPoint(config, keys[i], name.value);
        } else {
          missing := missing + [keys[i]];
        }
        names := names + [name.value];
        i := i + 1;
      }
      assert keys[..i] == keys;
      AhuOutcomeOf(setup, st0, ahuId, names, State());
      if missing != [] {
        unmapped := unmapped[ahuId := TopicRecord("ahu", MissingMsg(missing), TopicsOf(topicMap, ahuId))];
        return Ok((ahu, None));
      }
      r := Ok((ahu, Some(config)));
    }

    /** `generate_configs`: the files written, in order, and the exit status. */
    method GenerateConfigs() returns (r: Result<(seq<(string, Json)>, int)>)
      requires ValidSetup(setup)
      modifies this
      ensures var e := Generate(setup, old(State()));
        (r.Ok? <==> e.Ok?) && (r.Ok? ==> r.value == e.value.value && State() == e.value.st)
    {
      var ids := GetAhus();
      ghost var st0 := State();
      var outs: seq<(string, Option<Json>)> := [];
      var files: seq<(string, Json)> := [];
      var i := 0;
      assert ids[0..] == ids;
      ThenEnds(outs, st0, Runs(setup, st0, ids));
      while i < |ids|
        invariant 0 <= i <= |ids| && ids == st0.ahuList
        invariant |outs| == i && Runs(setup, st0, ids) == Then(outs, Runs(setup, State(), ids[i..]))
        invariant files == Files(outs)
      {
        RunsFront(setup, State(), ids, i);
        var out := GenerateAhuConfigs(ids[i]);
        if out.Err? {
          return Err(out.msg);
        }
        ThenThen(outs, out.value, Runs(setup, State(), ids[i + 1..]));
        FilesSnoc(outs, out.value);
        if out.value.1.Some? && Truthy(out.value.1.value) {
          files := files + [(out.value.0, out.value.1.value)];
        }
        outs := outs + [out.value];
        i := i + 1;
      }
      assert ids[i..] == [];
      ThenEnds(outs, State(), Runs(setup, State(), ids[i..]));
      r := Ok((files, ExitStatus(unmapped)));
    }
  }
}
