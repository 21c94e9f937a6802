/** The src airside RCx generator over the two JSON metadata documents
    (`JsonAirsideRCxConfigGenerator`) with the `generate_configs` loop of its
    `AirsideRCxConfigGenerator` base. Its setup is the one of the
    config_generators version. VAVs are the rows whose short id contains
    `vav`, grouped under `ahuRef`; the point document is loaded once into a
    map of equipment to meta value to point name; each AHU's config gets the
    names of its six AHU points and, per VAV role, the non-empty names found
    on its VAVs. There is no unmapped table and no fan check. A Python
    exception is an `Err`; what the object holds after one is left open. */
module RcxSrcJson {
  import opened Wrappers
  import opened Json
  import opened Names
  import opened Drivers
  import opened Rows
  import opened ODicts
  import opened Collapse
  import opened Rcx
  import RcxCg

  type RcxSetup = RcxCg.RcxSetup

  predicate ValidSetup(s: RcxSetup) {
    RcxCg.ValidSetup(s)
  }

  /** The fields the methods update: `vav_list`, `ahu_list` and
      `equip_id_point_map` (equipment to meta value to point name). */
  datatype JState = JState(
    vavList: seq<string>,
    ahuList: seq<string>,
    pointMap: map<string, map<string, string>>)

  datatype Step<T> = Step(value: T, st: JState)

  // ----- get_ahu_and_vavs -----

  datatype Grouped = Grouped(groups: ODict<seq<string>>, st: JState)

  /** The message of a VAV row without an `ahuRef` key. */
  const AhuRefErrorMsg := "KeyError: 'ahuRef'"

  /** One row of the loop: a row whose short id contains `vav` goes under
      its `ahuRef`, whatever its value, and to `vav_list`. */
  function GroupStep(g: Grouped, r: EquipRow): Result<Grouped> {
    if !ShortIdIsVav(r) then Ok(g)
    else if r.ahuRef.None? then Err(AhuRefErrorMsg)
    else Ok(Grouped(AppendAt(g.groups, r.ahuRef.value, r.id), g.st.(vavList := g.st.vavList + [r.id])))
  }

  function GroupRows(g: Grouped, rows: seq<EquipRow>): Result<Grouped>
    decreases |rows|
  {
    if rows == [] then Ok(g)
    else
      var p :- GroupRows(g, rows[..|rows| - 1]);
      GroupStep(p, rows[|rows| - 1])
  }

  /** `get_ahu_and_vavs`: the loop, then `ahu_list.extend(ahu_dict.keys())`. */
  function AhuAndVavs(st: JState, rows: seq<EquipRow>): Result<Grouped> {
    var g :- GroupRows(Grouped([], st), rows);
    Ok(g.(st := g.st.(ahuList := g.st.ahuList + Keys(g.groups))))
  }

  /** Reference definitions, in row order: the ids classified as VAVs, and
      those whose `ahuRef` is `k`. */
  function VavIds(rows: seq<EquipRow>): seq<string>
    decreases |rows|
  {
    if rows == [] then []
    else
      var r := rows[|rows| - 1];
      VavIds(rows[..|rows| - 1]) + (if ShortIdIsVav(r) then [r.id] else [])
  }

  function RefIds(rows: seq<EquipRow>, k: string): seq<string>
    decreases |rows|
  {
    if rows == [] then []
    else
      var r := rows[|rows| - 1];
      RefIds(rows[..|rows| - 1], k) + (if ShortIdIsVav(r) && r.ahuRef == Some(k) then [r.id] else [])
  }

  /** The loop fails exactly when some VAV row has no `ahuRef`; it extends
      `vav_list` by the VAV ids and leaves the rest alone. */
  lemma {:induction false} GroupRowsLists(g: Grouped, rows: seq<EquipRow>)
    ensures GroupRows(g, rows).Ok? <==> forall i :: 0 <= i < |rows| && ShortIdIsVav(rows[i]) ==> rows[i].ahuRef.Some?
    ensures GroupRows(g, rows).Ok? ==> var g2 := GroupRows(g, rows).value;
      g2.st == g.st.(vavList := g.st.vavList + VavIds(rows))
    decreases |rows|
  {
    if rows != [] {
      var n := |rows| - 1;
      GroupRowsLists(g, rows[..n]);
      assert forall i :: 0 <= i < n ==> rows[..n][i] == rows[i];
    }
  }

  /** Each key holds, in row order, the ids of the VAVs whose `ahuRef` it
      is; a key is present only when some VAV names it. */
  lemma {:induction false} GroupRowsBuckets(g: Grouped, rows: seq<EquipRow>, k: string)
    requires g.groups == [] && GroupRows(g, rows).Ok?
    ensures Get(GroupRows(g, rows).value.groups, k) == if RefIds(rows, k) == [] then None else Some(RefIds(rows, k))
    decreases |rows|
  {
    if rows != [] {
      var n := |rows| - 1;
      var r := rows[n];
      var prev := GroupRows(g, rows[..n]);
      assert prev.Ok?;
      GroupRowsBuckets(g, rows[..n], k);
      assert GroupRows(g, rows) == GroupStep(prev.value, r);
      assert RefIds(rows, k) == RefIds(rows[..n], k) + (if ShortIdIsVav(r) && r.ahuRef == Some(k) then [r.id] else []);
      if ShortIdIsVav(r) {
        var key := r.ahuRef.value;
        var old_ := Get(prev.value.groups, key);
        var v := (if old_.Some? then old_.value else []) + [r.id];
        PutSpec(prev.value.groups, key, v);
        if key == k {
          assert v == RefIds(rows, k);
        } else {
          assert RefIds(rows, k) == RefIds(rows[..n], k);
        }
      } else {
        assert RefIds(rows, k) == RefIds(rows[..n], k);
      }
    }
  }

  lemma {:induction false} GroupRowsUnique(g: Grouped, rows: seq<EquipRow>)
    requires g.groups == [] && GroupRows(g, rows).Ok?
    ensures UniqueKeys(GroupRows(g, rows).value.groups)
    decreases |rows|
  {
    if rows != [] {
      var n := |rows| - 1;
      var prev := GroupRows(g, rows[..n]);
      assert prev.Ok?;
      GroupRowsUnique(g, rows[..n]);
      var r := rows[n];
      if ShortIdIsVav(r) {
        var old_ := Get(prev.value.groups, r.ahuRef.value);
        PutSpec(prev.value.groups, r.ahuRef.value, (if old_.Some? then old_.value else []) + [r.id]);
      }
    }
  }

  /** The grouping fails exactly when a VAV row has no `ahuRef`; otherwise
      `ahu_list` gains exactly the group keys, each once, a key is an
      `ahuRef` some VAV names, and every VAV id joins `vav_list`. */
  lemma AhuAndVavsSpec(st: JState, rows: seq<EquipRow>)
    ensures AhuAndVavs(st, rows).Ok? <==> forall i :: 0 <= i < |rows| && ShortIdIsVav(rows[i]) ==> rows[i].ahuRef.Some?
    ensures AhuAndVavs(st, rows).Ok? ==> var g := AhuAndVavs(st, rows).value;
      UniqueKeys(g.groups) && g.st.ahuList == st.ahuList + Keys(g.groups) &&
      g.st.vavList == st.vavList + VavIds(rows) && g.st.pointMap == st.pointMap &&
      (forall k :: k in Keys(g.groups) <==> RefIds(rows, k) != []) &&
      (forall k :: k in Keys(g.groups) ==> Get(g.groups, k) == Some(RefIds(rows, k)))
  {
    GroupRowsLists(Grouped([], st), rows);
    if GroupRows(Grouped([], st), rows).Ok? {
      GroupRowsUnique(Grouped([], st), rows);
      var g := GroupRows(Grouped([], st), rows).value;
      forall k
        ensures k in Keys(g.groups) <==> RefIds(rows, k) != []
        ensures k in Keys(g.groups) ==> Get(g.groups, k) == Some(RefIds(rows, k))
      {
        GroupRowsBuckets(Grouped([], st), rows, k);
        GetSome(g.groups, k);
      }
    }
  }

  lemma {:induction false} GroupRowsPrefixErr(g: Grouped, rows: seq<EquipRow>, k: nat)
    requires k <= |rows| && GroupRows(g, rows[..k]).Err?
    ensures GroupRows(g, rows).Err?
    decreases |rows| - k
  {
    if k < |rows| {
      assert rows[..k + 1][..k] == rows[..k];
      GroupRowsPrefixErr(g, rows, k + 1);
    } else {
      assert rows[..k] == rows;
    }
  }

  // ----- get_point_name: the loading loop -----

  /** A meta value of interest for the equipment: one of the VAV types for a
      VAV, one of the AHU types for an AHU, nothing for other equipment. */
  predicate Interested(s: RcxSetup, st: JState, e: string, pt: string)
    requires ValidSetup(s)
  {
    if e in st.vavList then pt in TypesOf(s.metaMap, VavKeys)
    else e in st.ahuList && pt in TypesOf(s.metaMap, AhuKeys)
  }

  /** A row that stores a point name. */
  predicate Enters(s: RcxSetup, st: JState, p: PointRow)
    requires ValidSetup(s)
  {
    HasMeta(p, s.metaField) && Interested(s, st, p.equipRef, p.meta[s.metaField])
  }

  /** One point row of the loading loop: the name taken from the topic is
      stored even when it is empty. */
  function LoadStep(s: RcxSetup, st: JState, p: PointRow): Result<JState>
    requires ValidSetup(s)
  {
    if !HasMeta(p, s.metaField) then Ok(st)
    else if '.' !in p.id then Err(IndexErrorMsg)
    else
      var e := p.equipRef;
      var pt := p.meta[s.metaField];
      if !Interested(s, st, e, pt) then Ok(st)
      else Ok(st.(pointMap := st.pointMap[e := EntryOf(st.pointMap, e)[pt := PointNameFromTopic(p.topic)]]))
  }

  function Load(s: RcxSetup, st: JState, rows: seq<PointRow>): Result<JState>
    requires ValidSetup(s)
    decreases |rows|
  {
    if rows == [] then Ok(st)
    else
      var n := |rows| - 1;
      var p :- Load(s, st, rows[..n]);
      LoadStep(s, p, rows[n])
  }

  /** A row fails exactly when it passes the meta check without a `.` in its
      id. It keeps the lists; a row of interest adds its equipment to the
      map and its name under its meta value, and every other slot keeps its
      value. */
  lemma LoadStepSpec(s: RcxSetup, st: JState, p: PointRow)
    requires ValidSetup(s)
    ensures LoadStep(s, st, p).Ok? <==> RcxCg.RowLoads(s, p)
    ensures LoadStep(s, st, p).Ok? ==> var st2 := LoadStep(s, st, p).value;
      st2.vavList == st.vavList && st2.ahuList == st.ahuList &&
      st2.pointMap.Keys == st.pointMap.Keys + (if Enters(s, st, p) then {p.equipRef} else {}) &&
      forall k, pt :: At(st2.pointMap, k, pt) ==
        if Enters(s, st, p) && RcxCg.Slot(s, p, k, pt) then Some(PointNameFromTopic(p.topic)) else At(st.pointMap, k, pt)
  {
  }

  /** Loading fails exactly when some row fails, and keeps the lists. */
  lemma {:induction false} LoadOk(s: RcxSetup, st: JState, rows: seq<PointRow>)
    requires ValidSetup(s)
    ensures Load(s, st, rows).Ok? <==> forall i :: 0 <= i < |rows| ==> RcxCg.RowLoads(s, rows[i])
    ensures Load(s, st, rows).Ok? ==> var st2 := Load(s, st, rows).value;
      st2.vavList == st.vavList && st2.ahuList == st.ahuList
    decreases |rows|
  {
    if rows != [] {
      var n := |rows| - 1;
      LoadOk(s, st, rows[..n]);
      assert forall i :: 0 <= i < n ==> rows[..n][i] == rows[i];
      if Load(s, st, rows[..n]).Ok? {
        LoadStepSpec(s, Load(s, st, rows[..n]).value, rows[n]);
      }
    }
  }

  /** The unfolding of one more row, on a prefix that loads. */
  lemma LoadSnoc(s: RcxSetup, st: JState, rows: seq<PointRow>)
    requires ValidSetup(s) && rows != [] && Load(s, st, rows).Ok?
    ensures var n := |rows| - 1; var p := Load(s, st, rows[..n]);
      p.Ok? && Load(s, st, rows) == LoadStep(s, p.value, rows[n]) &&
      p.value.vavList == st.vavList && p.value.ahuList == st.ahuList &&
      (forall i :: 0 <= i < n ==> rows[..n][i] == rows[i])
  {
    var n := |rows| - 1;
    LoadOk(s, st, rows[..n]);
  }

  /** An equipment enters the map exactly when a row of interest names it. */
  lemma {:induction false} LoadKeys(s: RcxSetup, st: JState, rows: seq<PointRow>)
    requires ValidSetup(s) && Load(s, st, rows).Ok?
    ensures var st2 := Load(s, st, rows).value;
      forall e :: e in st2.pointMap <==> e in st.pointMap || exists i :: 0 <= i < |rows| && Enters(s, st, rows[i]) && rows[i].equipRef == e
    decreases |rows|
  {
    if rows != [] {
      var n := |rows| - 1;
      LoadSnoc(s, st, rows);
      LoadKeys(s, st, rows[..n]);
      LoadStepSpec(s, Load(s, st, rows[..n]).value, rows[n]);
    }
  }

  /** The last row of interest for an equipment and meta value decides the
      name, even an empty one. */
  lemma {:induction false} LoadNameLast(s: RcxSetup, st: JState, rows: seq<PointRow>, i: nat)
    requires ValidSetup(s) && Load(s, st, rows).Ok?
    requires i < |rows| && Enters(s, st, rows[i])
    requires var e := rows[i].equipRef; var pt := rows[i].meta[s.metaField];
      forall j :: i < j < |rows| ==> !(Enters(s, st, rows[j]) && RcxCg.Slot(s, rows[j], e, pt))
    ensures At(Load(s, st, rows).value.pointMap, rows[i].equipRef, rows[i].meta[s.metaField]) == Some(PointNameFromTopic(rows[i].topic))
    decreases |rows|
  {
    var n := |rows| - 1;
    LoadSnoc(s, st, rows);
    LoadStepSpec(s, Load(s, st, rows[..n]).value, rows[n]);
    if i < n {
      LoadNameLast(s, st, rows[..n], i);
    }
  }

  /** A slot no row of interest names keeps what it held. */
  lemma {:induction false} LoadNameUntouched(s: RcxSetup, st: JState, rows: seq<PointRow>, e: string, pt: string)
    requires ValidSetup(s) && Load(s, st, rows).Ok?
    requires forall j :: 0 <= j < |rows| ==> !(Enters(s, st, rows[j]) && RcxCg.Slot(s, rows[j], e, pt))
    ensures At(Load(s, st, rows).value.pointMap, e, pt) == At(st.pointMap, e, pt)
    decreases |rows|
  {
    if rows != [] {
      var n := |rows| - 1;
      LoadSnoc(s, st, rows);
      LoadStepSpec(s, Load(s, st, rows[..n]).value, rows[n]);
      LoadNameUntouched(s, st, rows[..n], e, pt);
    }
  }

  /** Without any row of interest, loading changes nothing. */
  lemma {:induction false} LoadNothing(s: RcxSetup, st: JState, rows: seq<PointRow>)
    requires ValidSetup(s) && Load(s, st, rows).Ok?
    requires forall j :: 0 <= j < |rows| ==> !Enters(s, st, rows[j])
    ensures Load(s, st, rows) == Ok(st)
    decreases |rows|
  {
    if rows != [] {
      var n := |rows| - 1;
      LoadSnoc(s, st, rows);
      LoadNothing(s, st, rows[..n]);
      LoadStepSpec(s, st, rows[n]);
    }
  }

  lemma {:induction false} LoadPrefixErr(s: RcxSetup, st: JState, rows: seq<PointRow>, k: nat)
    requires ValidSetup(s) && k <= |rows| && Load(s, st, rows[..k]).Err?
    ensures Load(s, st, rows).Err?
    decreases |rows| - k
  {
    if k < |rows| {
      assert rows[..k + 1][..k] == rows[..k];
      LoadPrefixErr(s, st, rows, k + 1);
    } else {
      assert rows[..k] == rows;
    }
  }

  // ----- get_point_name -----

  /** `if not self.equip_id_point_map`: the document is loaded while the
      point map is empty. */
  function Loaded(s: RcxSetup, st: JState): Result<JState>
    requires ValidSetup(s)
  {
    if st.pointMap == map[] then Load(s, st, s.pointRows) else Ok(st)
  }

  /** Loading a second time changes nothing. */
  lemma LoadedTwice(s: RcxSetup, st: JState)
    requires ValidSetup(s) && Loaded(s, st).Ok?
    ensures Loaded(s, Loaded(s, st).value) == Loaded(s, st)
  {
    var st1 := Loaded(s, st).value;
    if st.pointMap == map[] && st1.pointMap == map[] {
      LoadKeys(s, st, s.pointRows);
      forall j | 0 <= j < |s.pointRows|
        ensures !Enters(s, st, s.pointRows[j])
      {
        assert s.pointRows[j].equipRef !in st1.pointMap;
      }
      LoadNothing(s, st, s.pointRows);
    }
  }

  /** `get_point_name(equip_id, equip_type, key)`: the name stored for the
      key's meta value, `""` when none is; a `KeyError` for equipment the
      point map does not hold. */
  function PointName(s: RcxSetup, st: JState, e: string, key: string): Result<Step<string>>
    requires ValidSetup(s) && key in s.metaMap
  {
    var st1 :- Loaded(s, st);
    if e !in st1.pointMap then Err(KeyErrorMsg(e))
    else Ok(Step(NameIn(st1.pointMap[e], s.metaMap[key]), st1))
  }

  /** On a first lookup, an equipment is known exactly when some row of
      interest names it; a meta value no such row names gives `""`;
      otherwise the name is taken from the topic of the last row naming it. */
  lemma PointNameFromRows(s: RcxSetup, st: JState, e: string, key: string)
    requires ValidSetup(s) && key in s.metaMap && st.pointMap == map[] && Load(s, st, s.pointRows).Ok?
    ensures var r := PointName(s, st, e, key); var rows := s.pointRows; var pt := s.metaMap[key];
      (r.Ok? <==> exists i :: 0 <= i < |rows| && Enters(s, st, rows[i]) && rows[i].equipRef == e) &&
      (r.Ok? && (forall i :: 0 <= i < |rows| ==> !(Enters(s, st, rows[i]) && RcxCg.Slot(s, rows[i], e, pt))) ==>
        r.value.value == "") &&
      (forall i :: (0 <= i < |rows| && Enters(s, st, rows[i]) && RcxCg.Slot(s, rows[i], e, pt) &&
                    (forall j :: i < j < |rows| ==> !(Enters(s, st, rows[j]) && RcxCg.Slot(s, rows[j], e, pt)))) ==>
        r.Ok? && r.value.value == PointNameFromTopic(rows[i].topic))
  {
    var rows := s.pointRows;
    var pt := s.metaMap[key];
    LoadKeys(s, st, rows);
    if forall i :: 0 <= i < |rows| ==> !(Enters(s, st, rows[i]) && RcxCg.Slot(s, rows[i], e, pt)) {
      LoadNameUntouched(s, st, rows, e, pt);
    }
    forall i | 0 <= i < |rows| && Enters(s, st, rows[i]) && RcxCg.Slot(s, rows[i], e, pt) &&
        (forall j :: i < j < |rows| ==> !(Enters(s, st, rows[j]) && RcxCg.Slot(s, rows[j], e, pt)))
      ensures PointName(s, st, e, key).Ok? && PointName(s, st, e, key).value.value == PointNameFromTopic(rows[i].topic)
    {
      LoadNameLast(s, st, rows, i);
    }
  }

  /** Once loaded, a lookup neither reloads nor changes anything. */
  lemma PointNameLoaded(s: RcxSetup, st: JState, e: string, key: string)
    requires ValidSetup(s) && key in s.metaMap && st.pointMap != map[]
    ensures PointName(s, st, e, key) ==
      if e in st.pointMap then Ok(Step(NameIn(st.pointMap[e], s.metaMap[key]), st)) else Err(KeyErrorMsg(e))
  {
  }

  // ----- generate_ahu_configs -----

  /** The AHU name, its six point names, and the VAV role sets its config is
      built from. */
  datatype Plan = Plan(ahu: string, names: seq<string>, sets: map<string, set<string>>)

  function AhuPlan(s: RcxSetup, st: JState, ahuId: string, vavs: seq<string>): Result<Step<Plan>>
    requires ValidSetup(s)
  {
    if !RcxTemplate(s.template) then Err(TemplateErrorMsg)
    else
      var st1 :- Loaded(s, st);
      if ahuId !in st1.pointMap then Err(KeyErrorMsg(ahuId))
      else
        var sets :- VavSets(RcxCg.ReheatType(s), RcxCg.DamperType(s), st1.pointMap, vavs);
        Ok(Step(Plan(NameFromId(ahuId), AhuNames(s.metaMap, st1.pointMap[ahuId]), sets), st1))
  }

  /** The call fails exactly when the template has no point mapping, the
      document does not load, or the AHU or some VAV has no point of
      interest; otherwise the plan holds the AHU's short name, its six names
      and, per VAV role, exactly the non-empty names found on the VAVs, and
      only the loading changes the state. */
  lemma AhuPlanSpec(s: RcxSetup, st: JState, ahuId: string, vavs: seq<string>)
    requires ValidSetup(s)
    ensures var r := AhuPlan(s, st, ahuId, vavs); var l := Loaded(s, st);
      r.Err? <==> (!RcxTemplate(s.template) || l.Err? || ahuId !in l.value.pointMap ||
                   exists i :: 0 <= i < |vavs| && vavs[i] !in l.value.pointMap)
    ensures var r := AhuPlan(s, st, ahuId, vavs); var l := Loaded(s, st);
      r.Ok? ==> var p := r.value.value; var pm := l.value.pointMap;
        r.value.st == l.value && p.ahu == NameFromId(ahuId) && p.names == AhuNames(s.metaMap, pm[ahuId]) &&
        RoleNames(RcxCg.ReheatType(s), RcxCg.DamperType(s), pm, vavs, p.sets)
  {
    var l := Loaded(s, st);
    if RcxTemplate(s.template) && l.Ok? && ahuId in l.value.pointMap {
      VavSetsSpec(RcxCg.ReheatType(s), RcxCg.DamperType(s), l.value.pointMap, vavs);
    }
  }

  /** What `generate_ahu_configs` returns for a plan: the AHU name and a
      config realising it. */
  predicate Returns(s: RcxSetup, p: Plan, vavs: seq<string>, out: (string, Json)) {
    out.0 == p.ahu && RcxTemplate(s.template) && |p.names| == |AhuKeys| &&
    Realises(out.1, s.template, p.ahu, vavs, p.names, p.sets)
  }

  // ----- generate_configs (base) -----

  /** The loop of `generate_configs` over the groups, in order. */
  function Plans(s: RcxSetup, st: JState, groups: ODict<seq<string>>): (r: Result<Step<seq<Plan>>>)
    requires ValidSetup(s)
    ensures r.Ok? ==> |r.value.value| == |groups|
    decreases |groups|
  {
    if groups == [] then Ok(Step([], st))
    else
      var n := |groups| - 1;
      var p :- Plans(s, st, groups[..n]);
      var a :- AhuPlan(s, p.st, groups[n].0, groups[n].1);
      Ok(Step(p.value + [a.value], a.st))
  }

  lemma PlansStep(s: RcxSetup, st: JState, groups: ODict<seq<string>>, i: nat)
    requires ValidSetup(s) && i < |groups| && Plans(s, st, groups[..i]).Ok?
    ensures var p := Plans(s, st, groups[..i]).value; var a := AhuPlan(s, p.st, groups[i].0, groups[i].1);
      Plans(s, st, groups[..i + 1]) == if a.Err? then Err(a.msg) else Ok(Step(p.value + [a.value.value], a.value.st))
  {
    assert groups[..i + 1][..i] == groups[..i];
  }

  lemma {:induction false} PlansPrefixErr(s: RcxSetup, st: JState, groups: ODict<seq<string>>, k: nat)
    requires ValidSetup(s) && k <= |groups| && Plans(s, st, groups[..k]).Err?
    ensures Plans(s, st, groups).Err?
    decreases |groups| - k
  {
    if k < |groups| {
      assert groups[..k + 1][..k] == groups[..k];
      PlansPrefixErr(s, st, groups, k + 1);
    } else {
      assert groups[..k] == groups;
    }
  }

  /** A plan's state after the first AHU: the point map stays loaded, so
      every later AHU reads the same map and the lists never change. */
  lemma {:induction false} PlansKeepState(s: RcxSetup, st: JState, groups: ODict<seq<string>>)
    requires ValidSetup(s) && Plans(s, st, groups).Ok?
    ensures var st2 := Plans(s, st, groups).value.st;
      st2.vavList == st.vavList && st2.ahuList == st.ahuList &&
      (st.pointMap != map[] ==> st2 == st)
    decreases |groups|
  {
    if groups != [] {
      var n := |groups| - 1;
      var p := Plans(s, st, groups[..n]);
      PlansKeepState(s, st, groups[..n]);
      var a := AhuPlan(s, p.value.st, groups[n].0, groups[n].1);
      assert a.Ok?;
      LoadOk(s, p.value.st, s.pointRows);
    }
  }

  class JsonRcxGenerator {
    const setup: RcxSetup
    var vavList: seq<string>
    var ahuList: seq<string>
    /** `equip_id_point_map` */
    var pointMap: map<string, map<string, string>>

    function State(): JState
      reads this
    {
      JState(vavList, ahuList, pointMap)
    }

    constructor (setup: RcxSetup)
      requires ValidSetup(setup)
      ensures this.setup == setup && State() == JState([], [], map[])
    {
      this.setup := setup;
      vavList := [];
      ahuList := [];
      pointMap := map[];
    }

    method GetAhuAndVavs() returns (r: Result<ODict<seq<string>>>)
      modifies this
      ensures var e := AhuAndVavs(old(State()), setup.equipRows);
        (r.Ok? <==> e.Ok?) && (r.Ok? ==> Grouped(r.value, State()) == e.value)
    {
      ghost var g0 := Grouped([], State());
      var rows := setup.equipRows;
      var groups := [];
      var i := 0;
      while i < |rows|
        invariant 0 <= i <= |rows|
        invariant GroupRows(g0, rows[..i]) == Ok(Grouped(groups, State()))
      {
        var next := GroupRow(groups, i, g0);
        if next.Err? {
          GroupRowsPrefixErr(g0, rows, i + 1);
          return Err(next.msg);
        }
        groups := next.value;
        i := i + 1;
      }
      assert rows[..i] == rows;
      ahuList := ahuList + Keys(groups);
      r := Ok(groups);
    }

    /** One row of the loop of `get_ahu_and_vavs`. */
    method GroupRow(before: ODict<seq<string>>, i: nat, ghost g0: Grouped) returns (after: Result<ODict<seq<string>>>)
      requires i < |setup.equipRows|
      requires GroupRows(g0, setup.equipRows[..i]) == Ok(Grouped(before, State()))
      modifies this
      ensures var e := GroupRows(g0, setup.equipRows[..i + 1]);
        (after.Ok? <==> e.Ok?) && (after.Ok? ==> e.value == Grouped(after.value, State()))
    {
      var r := setup.equipRows[i];
      assert setup.equipRows[..i + 1][..i] == setup.equipRows[..i];
      if !ShortIdIsVav(r) {
        return Ok(before);
      }
      if r.ahuRef.None? {
        return Err(AhuRefErrorMsg);
      }
      vavList := vavList + [r.id];
      after := Ok(AppendAt(before, r.ahuRef.value, r.id));
    }

    /** The loading loop of `get_point_name`. */
    method LoadPoints() returns (r: Result<()>)
      requires ValidSetup(setup)
      modifies this
      ensures var e := Load(setup, old(State()), setup.pointRows);
        (r.Ok? <==> e.Ok?) && (r.Ok? ==> State() == e.value)
    {
      var rows := setup.pointRows;
      ghost var st0 := State();
      var i := 0;
      while i < |rows|
        invariant 0 <= i <= |rows|
        invariant Load(setup, st0, rows[..i]) == Ok(State())
      {
        var ok := LoadRow(rows[i]);
        assert rows[..i + 1][..i] == rows[..i];
        if !ok {
          LoadPrefixErr(setup, st0, rows, i + 1);
          return Err(IndexErrorMsg);
        }
        i := i + 1;
      }
      assert rows[..i] == rows;
      r := Ok(());
    }

    /** One point row of the loading loop. */
    method LoadRow(row: PointRow) returns (ok: bool)
      requires ValidSetup(setup)
      modifies this
      ensures var e := LoadStep(setup, old(State()), row); (ok <==> e.Ok?) && (ok ==> State() == e.value)
    {
      if !HasMeta(row, setup.metaField) {
        return true;
      }
      if '.' !in row.id {
        return false;
      }
      var e := row.equipRef;
      var interested: seq<string>;
      if e in vavList {
        interested := TypesOf(setup.metaMap, VavKeys);
      } else if e in ahuList {
        interested := TypesOf(setup.metaMap, AhuKeys);
      } else {
        return true;
      }
      var pt := row.meta[setup.metaField];
      if pt in interested {
        pointMap := pointMap[e := EntryOf(pointMap, e)[pt := PointNameFromTopic(row.topic)]];
      }
      ok := true;
    }

    /** `get_point_name(equip_id, equip_type, key)` */
    method GetPointName(equipId: string, key: string) returns (r: Result<string>)
      requires ValidSetup(setup) && key in setup.metaMap
      modifies this
      ensures var e := PointName(setup, old(State()), equipId, key);
        (r.Ok? <==> e.Ok?) && (r.Ok? ==> r.value == e.value.value && State() == e.value.st)
    {
      if pointMap == map[] {
        var loaded := LoadPoints();
        if loaded.Err? {
          return Err(loaded.msg);
        }
      }
      if equipId !in pointMap {
        return Err(KeyErrorMsg(equipId));
      }
      var pt := setup.metaMap[key];
      r := Ok(if pt in pointMap[equipId] then pointMap[equipId][pt] else "");
    }

    /** The six AHU lookups of `generate_ahu_configs`. */
    method AhuPointNames(ahuId: string) returns (r: Result<seq<string>>)
      requires ValidSetup(setup)
      modifies this
      ensures var l := Loaded(setup, old(State()));
        (r.Ok? <==> l.Ok? && ahuId in l.value.pointMap) &&
        (r.Ok? ==> State() == l.value && r.value == AhuNames(setup.metaMap, l.value.pointMap[ahuId]))
    {
      ghost var st0 := State();
      var names: seq<string> := [];
      var i := 0;
      while i < |AhuKeys|
        invariant 0 <= i <= |AhuKeys| && |names| == i
        invariant i == 0 ==> State() == st0
        invariant i > 0 ==> (Loaded(setup, st0).Ok? && State() == Loaded(setup, st0).value && ahuId in pointMap &&
                             forall j :: 0 <= j < i ==> names[j] == NameIn(pointMap[ahuId], setup.metaMap[AhuKeys[j]]))
      {
        if i > 0 {
          PointNameLoaded(setup, State(), ahuId, AhuKeys[i]);
        }
        var n := GetPointName(ahuId, AhuKeys[i]);
        if n.Err? {
          return Err(n.msg);
        }
        names := names + [n.value];
        i := i + 1;
      }
      r := Ok(names);
    }

    /** The VAV loop of `generate_ahu_configs`: the subdevices and the names
        of each role, on a loaded point map. */
    method VavPointSets(vavs: seq<string>) returns (r: Result<(seq<string>, map<string, set<string>>)>)
      requires ValidSetup(setup) && pointMap != map[]
      modifies this
      ensures var e := VavSets(RcxCg.ReheatType(setup), RcxCg.DamperType(setup), old(pointMap), vavs);
        (r.Ok? <==> e.Ok?) && (r.Ok? ==> r.value == (SubDevices(vavs), e.value) && State() == old(State()))
    {
      var subs: seq<string> := [];
      var sets: map<string, set<string>> := map[];
      var i := 0;
      while i < |vavs|
        invariant 0 <= i <= |vavs|
        invariant State() == old(State())
        invariant subs == SubDevices(vavs[..i])
        invariant VavSets(RcxCg.ReheatType(setup), RcxCg.DamperType(setup), old(pointMap), vavs[..i]) == Ok(sets)
      {
        SubDevicesStep(vavs, i);
        subs := subs + [NameFromId(vavs[i])];
        var next := VavPointNames(vavs, i, sets);
        if next.Err? {
          VavSetsPrefixErr(RcxCg.ReheatType(setup), RcxCg.DamperType(setup), old(pointMap), vavs, i + 1);
          return Err(next.msg);
        }
        sets := next.value;
        i := i + 1;
      }
      assert vavs[..i] == vavs;
      r := Ok((subs, sets));
    }

    /** The two role lookups of one VAV. */
    method VavPointNames(vavs: seq<string>, i: nat, sets: map<string, set<string>>) returns (r: Result<map<string, set<string>>>)
      requires ValidSetup(setup) && pointMap != map[] && i < |vavs|
      requires VavSets(RcxCg.ReheatType(setup), RcxCg.DamperType(setup), pointMap, vavs[..i]) == Ok(sets)
      modifies this
      ensures var e := VavSets(RcxCg.ReheatType(setup), RcxCg.DamperType(setup), old(pointMap), vavs[..i + 1]);
        (r.Ok? <==> e.Ok?) && (r.Ok? ==> r.value == e.value && State() == old(State()))
    {
      assert VavKeys[0] == "zone_reheat" && VavKeys[1] == "zone_damper";
      VavSetsStep(RcxCg.ReheatType(setup), RcxCg.DamperType(setup), pointMap, vavs, i);
      var v := vavs[i];
      PointNameLoaded(setup, State(), v, "zone_reheat");
      var reheat := GetPointName(v, "zone_reheat");
      if reheat.Err? {
        return Err(reheat.msg);
      }
      PointNameLoaded(setup, State(), v, "zone_damper");
      var damper := GetPointName(v, "zone_damper");
      r := Ok(AddNamed(AddNamed(sets, "zone_reheat", reheat.value), "zone_damper", damper.value));
    }

    method GenerateAhuConfigs(ahuId: string, vavs: seq<string>) returns (r: Result<(string, Json)>)
      requires ValidSetup(setup)
      modifies this
      ensures var e := AhuPlan(setup, old(State()), ahuId, vavs);
        (r.Ok? <==> e.Ok?) && (r.Ok? ==> State() == e.value.st && Returns(setup, e.value.value, vavs, r.value))
    {
      if !RcxTemplate(setup.template) {
        return Err(TemplateErrorMsg);
      }
      var ahu := NameFromId(ahuId);
      var found := AhuPointNames(ahuId);
      if found.Err? {
        return Err(found.msg);
      }
      var names := found.value;
      var gathered := VavPointSets(vavs);
      if gathered.Err? {
        return Err(gathered.msg);
      }
      var (subs, sets) := gathered.value;
      var reheat := CollapseSet(SetOf(sets, "zone_reheat"));
      var damper := CollapseSet(SetOf(sets, "zone_damper"));
      RealisesIntro(setup.template, ahu, vavs, names, sets, reheat, damper);
      r := Ok((ahu, Assemble(setup.template, ahu, subs, VavMapping(AhuMapping(names), reheat, damper))));
    }

    /** `generate_configs`: one `<ahu>.json` file per group, in order. */
    method GenerateConfigs() returns (r: Result<seq<(string, Json)>>)
      requires ValidSetup(setup)
      modifies this
      ensures var g := AhuAndVavs(old(State()), setup.equipRows);
        r.Ok? <==> g.Ok? && Plans(setup, g.value.st, g.value.groups).Ok?
      ensures var g := AhuAndVavs(old(State()), setup.equipRows);
        r.Ok? ==> var e := Plans(setup, g.value.st, g.value.groups).value;
          State() == e.st && |r.value| == |g.value.groups| &&
          forall i :: 0 <= i < |g.value.groups| ==> Returns(setup, e.value[i], g.value.groups[i].1, r.value[i])
    {
      var groups := GetAhuAndVavs();
      if groups.Err? {
        return Err(groups.msg);
      }
      r := GenerateAll(groups.value);
    }

    /** The loop of `generate_configs` over the grouped AHUs. */
    method GenerateAll(groups: ODict<seq<string>>) returns (r: Result<seq<(string, Json)>>)
      requires ValidSetup(setup)
      modifies this
      ensures var e := Plans(setup, old(State()), groups);
        (r.Ok? <==> e.Ok?) &&
        (r.Ok? ==>
          State() == e.value.st && |r.value| == |groups| &&
          forall i :: 0 <= i < |groups| ==> Returns(setup, e.value.value[i], groups[i].1, r.value[i]))
    {
      ghost var st1 := State();
      ghost var plans: seq<Plan> := [];
      var outs: seq<(string, Json)> := [];
      var i := 0;
      while i < |groups|
        invariant 0 <= i <= |groups| && |outs| == i
        invariant Plans(setup, st1, groups[..i]) == Ok(Step(plans, State()))
        invariant forall j :: 0 <= j < i ==> Returns(setup, plans[j], groups[j].1, outs[j])
      {
        PlansStep(setup, st1, groups, i);
        var out := GenerateAhuConfigs(groups[i].0, groups[i].1);
        if out.Err? {
          PlansPrefixErr(setup, st1, groups, i + 1);
          return Err(out.msg);
        }
        ghost var plans0 := plans;
        plans := Plans(setup, st1, groups[..i + 1]).value.value;
        var outs0 := outs;
        outs := outs + [out.value];
        forall j | 0 <= j <= i
          ensures Returns(setup, plans[j], groups[j].1, outs[j])
        {
          if j < i {
            assert plans[j] == plans0[j] && outs[j] == outs0[j];
          }
        }
        i := i + 1;
      }
      assert groups[..i] == groups;
      r := Ok(outs);
    }
  }
}
