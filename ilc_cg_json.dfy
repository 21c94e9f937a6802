/** The `config_generators` ILC generator over the two JSON metadata
    documents (`JsonILCConfigGenerator`). `_populate_equip_details` finds
    the whole-building power meter and fills `vav_dict` in one pass over the
    equipment rows. The first `get_point_name`, and every one while the
    point map is still empty, loads the point rows into a map of equipment
    to meta value to point name. A second name for the same slot keeps the
    first and records an ambiguity. The VAV loops are those of `Ilc`. */
module IlcCgJson {
  import opened Wrappers
  import opened Json
  import opened Names
  import opened Rows
  import opened ODicts
  import opened Folds
  import opened Ilc
  import opened IlcGen
  import Rcx

  // ----- _populate_equip_details -----

  /** `power_meter_id` (`None` until a meter row is seen) and `vav_dict`. */
  datatype Equip = Equip(meter: Option<string>, vavs: ODict<string>)

  /** A meter row: the row with the configured id, or, with none configured,
      a row carrying the `siteMeter` tag. */
  predicate IsMeter(s: Setup, r: EquipRow) {
    if s.configuredMeterId != "" then r.id == s.configuredMeterId else MeterTag in r.tags
  }

  /** One equipment row: a meter row sets the meter, or raises a
      `ValueError` when one is already set (its message is attached by
      `PowerMeter`); a `vav`-tagged row then maps its id to its `ahuRef`. */
  function PopulateStep(s: Setup, q: Equip, r: EquipRow): Result<Equip> {
    if IsMeter(s, r) && q.meter.Some? then Err("ValueError")
    else Ok(Equip(if IsMeter(s, r) then Some(r.id) else q.meter,
                  if "vav" in r.tags then Put(q.vavs, r.id, AhuRefOr(r)) else q.vavs))
  }

  function PopulateStepOf(s: Setup): (Equip, EquipRow) -> Result<Equip> {
    (q: Equip, r: EquipRow) => PopulateStep(s, q, r)
  }

  /** The loop over the equipment rows, in order. */
  function Populate(s: Setup, q0: Equip, rows: seq<EquipRow>): Result<Equip> {
    Fold(PopulateStepOf(s), q0, rows)
  }

  /** Two different rows are meter rows. */
  predicate TwoMeters(s: Setup, rows: seq<EquipRow>) {
    exists i, j :: 0 <= i < j < |rows| && IsMeter(s, rows[i]) && IsMeter(s, rows[j])
  }

  /** From no meter, the pass fails exactly when
      two rows are meter rows. Otherwise the meter stays `None` exactly when
      no row is a meter row, and it is the id of the one that is. */
  lemma PopulateMeter(s: Setup, v0: ODict<string>, rows: seq<EquipRow>)
    ensures var r := Populate(s, Equip(None, v0), rows);
      (r.Ok? <==> !TwoMeters(s, rows)) &&
      (r.Ok? ==> (r.value.meter.None? <==> forall i :: 0 <= i < |rows| ==> !IsMeter(s, rows[i]))) &&
      (r.Ok? ==> forall i :: 0 <= i < |rows| && IsMeter(s, rows[i]) ==> r.value.meter == Some(rows[i].id))
  {
    PopulateMeterOk(s, v0, rows);
    PopulateMeterErr(s, v0, rows);
  }

  /** What the meter is after the rows seen so far. */
  predicate MeterOf(s: Setup, m: Option<string>, rows: seq<EquipRow>) {
    !TwoMeters(s, rows) &&
    (m.None? <==> forall i :: 0 <= i < |rows| ==> !IsMeter(s, rows[i])) &&
    (forall i :: 0 <= i < |rows| && IsMeter(s, rows[i]) ==> m == Some(rows[i].id))
  }

  /** Two meter rows among the rows seen and one more: two among the first,
      or the last one and one before it. */
  lemma TwoMetersSnoc(s: Setup, ys: seq<EquipRow>, x: EquipRow)
    ensures TwoMeters(s, ys + [x]) <==>
      TwoMeters(s, ys) || (IsMeter(s, x) && exists i :: 0 <= i < |ys| && IsMeter(s, ys[i]))
  {
    var zs := ys + [x];
    assert forall j :: 0 <= j < |ys| ==> zs[j] == ys[j];
    assert zs[|ys|] == x;
    if TwoMeters(s, zs) {
      var i, j :| 0 <= i < j < |zs| && IsMeter(s, zs[i]) && IsMeter(s, zs[j]);
      if j < |ys| {
        assert IsMeter(s, ys[i]) && IsMeter(s, ys[j]);
      } else {
        assert IsMeter(s, ys[i]);
      }
    }
    if TwoMeters(s, ys) {
      var i, j :| 0 <= i < j < |ys| && IsMeter(s, ys[i]) && IsMeter(s, ys[j]);
      assert IsMeter(s, zs[i]) && IsMeter(s, zs[j]);
    }
    if IsMeter(s, x) && exists i :: 0 <= i < |ys| && IsMeter(s, ys[i]) {
      var i :| 0 <= i < |ys| && IsMeter(s, ys[i]);
      assert IsMeter(s, zs[i]) && IsMeter(s, zs[|ys|]);
    }
  }

  /** One more row keeps `MeterOf`. */
  lemma MeterOfStep(s: Setup, a: Equip, ys: seq<EquipRow>, x: EquipRow)
    requires MeterOf(s, a.meter, ys) && PopulateStep(s, a, x).Ok?
    ensures MeterOf(s, PopulateStep(s, a, x).value.meter, ys + [x])
  {
    var zs := ys + [x];
    assert forall j :: 0 <= j < |ys| ==> zs[j] == ys[j];
    assert zs[|ys|] == x;
    TwoMetersSnoc(s, ys, x);
  }

  lemma PopulateMeterOk(s: Setup, v0: ODict<string>, rows: seq<EquipRow>)
    ensures var r := Populate(s, Equip(None, v0), rows);
      r.Ok? ==> MeterOf(s, r.value.meter, rows)
  {
    var inv := (a: Equip, ys: seq<EquipRow>) => MeterOf(s, a.meter, ys);
    forall a: Equip, ys: seq<EquipRow>, x: EquipRow | inv(a, ys) && PopulateStepOf(s)(a, x).Ok?
      ensures inv(PopulateStepOf(s)(a, x).value, ys + [x])
    {
      MeterOfStep(s, a, ys, x);
    }
    FoldHistory(PopulateStepOf(s), inv, Equip(None, v0), rows);
  }

  /** A failing pass has seen two meter rows. */
  lemma {:induction false} PopulateMeterErr(s: Setup, v0: ODict<string>, rows: seq<EquipRow>)
    ensures var r := Populate(s, Equip(None, v0), rows);
      r.Err? ==> TwoMeters(s, rows)
    decreases |rows|
  {
    if rows != [] {
      var n := |rows| - 1;
      var init := rows[..n];
      PopulateMeterErr(s, v0, init);
      var p := Populate(s, Equip(None, v0), init);
      if p.Err? {
        var i, j :| 0 <= i < j < n && IsMeter(s, init[i]) && IsMeter(s, init[j]);
        assert init[i] == rows[i] && init[j] == rows[j];
      } else if IsMeter(s, rows[n]) && p.value.meter.Some? {
        PopulateMeterOk(s, v0, init);
        var i :| 0 <= i < n && IsMeter(s, init[i]);
        assert init[i] == rows[i];
      }
    }
  }

  /** The last `vav`-tagged row with an id decides what `vav_dict` maps it
      to: its `ahuRef`, or `""` when it has none. */
  lemma PopulateVavLast(s: Setup, q0: Equip, rows: seq<EquipRow>, i: nat)
    requires i < |rows| && "vav" in rows[i].tags
    requires forall j :: i < j < |rows| ==> !("vav" in rows[j].tags && rows[j].id == rows[i].id)
    ensures var r := Populate(s, q0, rows);
      r.Ok? ==> Get(r.value.vavs, rows[i].id) == Some(AhuRefOr(rows[i]))
  {
    var q := (x: EquipRow) => "vav" in x.tags;
    var rr := (x: EquipRow, a: Equip) => Get(a.vavs, x.id) == Some(AhuRefOr(x));
    var keep := (y: EquipRow, x: EquipRow) => !("vav" in x.tags && x.id == y.id);
    forall a: Equip, x: EquipRow | q(x) && PopulateStepOf(s)(a, x).Ok?
      ensures rr(x, PopulateStepOf(s)(a, x).value)
    {
      PutGet(a.vavs, x.id, AhuRefOr(x));
    }
    forall a: Equip, x: EquipRow, y: EquipRow | rr(y, a) && keep(y, x) && PopulateStepOf(s)(a, x).Ok?
      ensures rr(y, PopulateStepOf(s)(a, x).value)
    {
      PutGet(a.vavs, x.id, AhuRefOr(x));
    }
    FoldLast(PopulateStepOf(s), q, rr, keep, q0, rows, i);
  }

  /** An id no `vav`-tagged row has keeps what `vav_dict` mapped it to. */
  lemma PopulateVavUntouched(s: Setup, q0: Equip, rows: seq<EquipRow>, k: string)
    requires forall j :: 0 <= j < |rows| ==> !("vav" in rows[j].tags && rows[j].id == k)
    ensures var r := Populate(s, q0, rows);
      r.Ok? ==> Get(r.value.vavs, k) == Get(q0.vavs, k)
  {
    var inv := (a: Equip, ys: seq<EquipRow>) =>
      (forall j :: 0 <= j < |ys| ==> !("vav" in ys[j].tags && ys[j].id == k)) ==> Get(a.vavs, k) == Get(q0.vavs, k);
    forall a: Equip, ys: seq<EquipRow>, x: EquipRow | inv(a, ys) && PopulateStepOf(s)(a, x).Ok?
      ensures inv(PopulateStepOf(s)(a, x).value, ys + [x])
    {
      PutGet(a.vavs, x.id, AhuRefOr(x));
      assert forall j :: 0 <= j < |ys| ==> (ys + [x])[j] == ys[j];
      assert (ys + [x])[|ys|] == x;
    }
    FoldHistory(PopulateStepOf(s), inv, q0, rows);
  }

  /** `vav_dict` keeps its keys unique. */
  lemma PopulateUnique(s: Setup, q0: Equip, rows: seq<EquipRow>)
    requires UniqueKeys(q0.vavs)
    ensures var r := Populate(s, q0, rows);
      r.Ok? ==> UniqueKeys(r.value.vavs)
  {
    var inv := (a: Equip, ys: seq<EquipRow>) => UniqueKeys(a.vavs);
    forall a: Equip, ys: seq<EquipRow>, x: EquipRow | inv(a, ys) && PopulateStepOf(s)(a, x).Ok?
      ensures inv(PopulateStepOf(s)(a, x).value, ys + [x])
    {
      PutUnique(a.vavs, x.id, AhuRefOr(x));
    }
    FoldHistory(PopulateStepOf(s), inv, q0, rows);
  }

  // ----- get_building_power_meter -----

  /** `if not power_meter_id`: no meter, or an empty one. */
  predicate HasMeter(m: Option<string>) {
    m.Some? && m.value != ""
  }

  /** The meter id as the ILC config uses it: `None` is as empty as `""`. */
  function MeterStr(m: Option<string>): string {
    if m.Some? then m.value else ""
  }

  /** `get_building_power_meter`: the pass over the equipment rows when no
      meter is set, and the meter it leaves; `None` when a meter was already
      set, for the method then falls off its end. */
  function PowerMeter(s: Setup, rows: seq<EquipRow>, q: Equip): Result<(Option<string>, Equip)> {
    if HasMeter(q.meter) then Ok((None, q))
    else
      match Populate(s, q, rows)
      case Err(_) => Err(TwoMetersMsg(s))
      case Ok(q1) => Ok((q1.meter, q1))
  }

  /** On a new generator, the meter lookup fails exactly when two rows are
      meter rows, and otherwise returns the id of the one meter row, or
      `None` when there is none. */
  lemma PowerMeterFresh(s: Setup, rows: seq<EquipRow>)
    ensures var r := PowerMeter(s, rows, Equip(None, []));
      (r.Ok? <==> !TwoMeters(s, rows)) &&
      (r.Ok? ==> (r.value.0.None? <==> forall i :: 0 <= i < |rows| ==> !IsMeter(s, rows[i]))) &&
      (r.Ok? ==> forall i :: 0 <= i < |rows| && IsMeter(s, rows[i]) ==> r.value.0 == Some(rows[i].id))
  {
    PopulateMeter(s, [], rows);
  }

  // ----- loading the point rows -----

  /** `equip_id_point_map`, `equip_id_point_topic_map` and
      `unmapped_device_details`. */
  datatype LState = LState(pointMap: map<string, map<string, string>>, topicMap: map<string, map<string, string>>,
                           unmapped: Table)

  /** The meta values of interest for an equipment: the power point type
      for the meter, the VAV meta values for a VAV, none otherwise. */
  function Interested(s: Setup, q: Equip, e: string): seq<string> {
    if q.meter == Some(e) then [s.powerPointType]
    else if Get(q.vavs, e).Some? then VavMetas(s.metaMap)
    else []
  }

  /** The `type` of the record of an equipment of interest. */
  function EquipType(q: Equip, e: string): string {
    if q.meter == Some(e) then "building power" else "vav"
  }

  /** A row that is loaded: it has a meta field, and its meta value is of
      interest for its equipment. */
  predicate Takes(s: Setup, q: Equip, p: PointRow) {
    HasMeta(p, s.metaField) && p.meta[s.metaField] in Interested(s, q, p.equipRef)
  }

  /** A loaded row whose topic gives a point name. */
  predicate Named(s: Setup, q: Equip, p: PointRow) {
    Takes(s, q, p) && PointNameFromTopic(p.topic) != ""
  }

  /** The row is about equipment `e` and meta value `pt`. */
  predicate Slot(s: Setup, p: PointRow, e: string, pt: string) {
    p.equipRef == e && HasMeta(p, s.metaField) && p.meta[s.metaField] == pt
  }

  /** What `get_point_name` finds at an equipment and meta value: `""` for
      an absent equipment or meta value. */
  function SlotName(pm: map<string, map<string, string>>, e: string, pt: string): string {
    Rcx.NameIn(Rcx.EntryOf(pm, e), pt)
  }

  const NoNameMsg := "Unable to get point name from topic"

  /** One point row. A loaded row records its topic and gives its
      equipment an entry in the point map. A name goes in when the slot has
      none; a second name keeps the first and records the ambiguity with
      this row's topic; a topic without a name records that. */
  function LoadStep(s: Setup, q: Equip, st: LState, p: PointRow): LState {
    if !Takes(s, q, p) then st
    else Enter(s, st, p.equipRef, p.meta[s.metaField], p.topic, EquipType(q, p.equipRef))
  }

  /** A loaded row of equipment `e`, meta value `pt` and topic `topic`. */
  function Enter(s: Setup, st: LState, e: string, pt: string, topic: string, ty: string): LState {
    var names := Rcx.EntryOf(st.pointMap, e);
    var name := PointNameFromTopic(topic);
    var topics := st.topicMap[e := Rcx.EntryOf(st.topicMap, e)[pt := topic]];
    if name == "" then
      LState(st.pointMap[e := names], topics, st.unmapped[e := TopicRecord(ty, NoNameMsg, JStr(topic))])
    else if Rcx.NameIn(names, pt) != "" then
      LState(st.pointMap[e := names], topics, st.unmapped[e := TopicRecord(ty, AmbiguousMsg(s, pt), JStr(topic))])
    else LState(st.pointMap[e := names[pt := name]], topics, st.unmapped)
  }

  function LoadStepOf(s: Setup, q: Equip): (LState, PointRow) -> Result<LState> {
    (st: LState, p: PointRow) => Ok(LoadStep(s, q, st, p))
  }

  /** The loop over the point rows, in order; it never fails. */
  function Load(s: Setup, q: Equip, st: LState, rows: seq<PointRow>): Result<LState> {
    Fold(LoadStepOf(s, q), st, rows)
  }

  /** One row, at one slot: a named row of the slot sets its point name
      when it has none, and a loaded row of the slot sets its topic;
      nothing else changes there. */
  lemma StepSlot(s: Setup, q: Equip, a: LState, p: PointRow, e: string, pt: string)
    ensures var b := LoadStep(s, q, a, p);
      SlotName(b.pointMap, e, pt) ==
        (if Named(s, q, p) && Slot(s, p, e, pt) && SlotName(a.pointMap, e, pt) == "" then PointNameFromTopic(p.topic)
         else SlotName(a.pointMap, e, pt)) &&
      Rcx.At(b.topicMap, e, pt) == (if Takes(s, q, p) && Slot(s, p, e, pt) then Some(p.topic) else Rcx.At(a.topicMap, e, pt))
  {
    StepName(s, q, a, p, e, pt);
    StepTopic(s, q, a, p, e, pt);
  }

  lemma StepName(s: Setup, q: Equip, a: LState, p: PointRow, e: string, pt: string)
    ensures SlotName(LoadStep(s, q, a, p).pointMap, e, pt) ==
      (if Named(s, q, p) && Slot(s, p, e, pt) && SlotName(a.pointMap, e, pt) == "" then PointNameFromTopic(p.topic)
       else SlotName(a.pointMap, e, pt))
  {
    if Takes(s, q, p) {
      EnterName(s, a, p.equipRef, p.meta[s.metaField], p.topic, EquipType(q, p.equipRef), e, pt);
    }
  }

  lemma EnterName(s: Setup, a: LState, e0: string, pt0: string, topic: string, ty: string, e: string, pt: string)
    ensures SlotName(Enter(s, a, e0, pt0, topic, ty).pointMap, e, pt) ==
      (if PointNameFromTopic(topic) != "" && e == e0 && pt == pt0 && SlotName(a.pointMap, e, pt) == "" then PointNameFromTopic(topic)
       else SlotName(a.pointMap, e, pt))
  {
    var names := Rcx.EntryOf(a.pointMap, e0);
    var pm := Enter(s, a, e0, pt0, topic, ty).pointMap;
    if PointNameFromTopic(topic) != "" && Rcx.NameIn(names, pt0) == "" {
      assert pm == a.pointMap[e0 := names[pt0 := PointNameFromTopic(topic)]];
    } else {
      assert pm == a.pointMap[e0 := names];
    }
  }

  lemma StepTopic(s: Setup, q: Equip, a: LState, p: PointRow, e: string, pt: string)
    ensures Rcx.At(LoadStep(s, q, a, p).topicMap, e, pt) ==
      (if Takes(s, q, p) && Slot(s, p, e, pt) then Some(p.topic) else Rcx.At(a.topicMap, e, pt))
  {
    if Takes(s, q, p) {
      var e0 := p.equipRef;
      var pt0 := p.meta[s.metaField];
      assert LoadStep(s, q, a, p).topicMap == a.topicMap[e0 := Rcx.EntryOf(a.topicMap, e0)[pt0 := p.topic]];
    }
  }

  /** One row, at one record: only a loaded row of the equipment writes
      it; a record is never emptied; a loaded row without a name, or with a
      second name for its slot, leaves a record. */
  lemma StepTable(s: Setup, q: Equip, a: LState, p: PointRow, k: string)
    ensures var b := LoadStep(s, q, a, p);
      (!(Takes(s, q, p) && p.equipRef == k) ==>
        (k in b.unmapped <==> k in a.unmapped) && (k in b.unmapped ==> b.unmapped[k] == a.unmapped[k])) &&
      (HasRecord(a.unmapped, k) ==> HasRecord(b.unmapped, k)) &&
      (Takes(s, q, p) && p.equipRef == k &&
        (PointNameFromTopic(p.topic) == "" || SlotName(a.pointMap, k, p.meta[s.metaField]) != "") ==>
        HasRecord(b.unmapped, k))
  {
    if Takes(s, q, p) {
      EnterTable(s, a, p.equipRef, p.meta[s.metaField], p.topic, EquipType(q, p.equipRef), k);
    }
  }

  lemma EnterTable(s: Setup, a: LState, e0: string, pt0: string, topic: string, ty: string, k: string)
    ensures var t := Enter(s, a, e0, pt0, topic, ty).unmapped;
      (k != e0 ==> (k in t <==> k in a.unmapped) && (k in t ==> t[k] == a.unmapped[k])) &&
      (HasRecord(a.unmapped, k) ==> HasRecord(t, k)) &&
      (k == e0 && (PointNameFromTopic(topic) == "" || SlotName(a.pointMap, k, pt0) != "") ==> HasRecord(t, k))
  {
    assert "type" in TopicRecord(ty, NoNameMsg, JStr(topic));
    assert "type" in TopicRecord(ty, AmbiguousMsg(s, pt0), JStr(topic));
  }

  /** One row: no entry of the point map goes, and a loaded row's
      equipment has one. */
  lemma StepEntries(s: Setup, q: Equip, a: LState, p: PointRow)
    ensures var b := LoadStep(s, q, a, p);
      a.pointMap.Keys <= b.pointMap.Keys && (Takes(s, q, p) ==> p.equipRef in b.pointMap)
  {
  }

  /** Loading never fails. */
  lemma LoadOk(s: Setup, q: Equip, st: LState, rows: seq<PointRow>)
    ensures Load(s, q, st, rows).Ok?
  {
    FoldOk(LoadStepOf(s, q), st, rows);
  }

  /** Rows that are not loaded leave everything as it was: rows without a
      meta field, rows of other equipment, and meta values not of interest. */
  lemma LoadIgnored(s: Setup, q: Equip, st: LState, rows: seq<PointRow>)
    requires forall j :: 0 <= j < |rows| ==> !Takes(s, q, rows[j])
    ensures Load(s, q, st, rows) == Ok(st)
  {
    var inv := (a: LState, ys: seq<PointRow>) => (forall j :: 0 <= j < |ys| ==> !Takes(s, q, ys[j])) ==> a == st;
    forall a: LState, ys: seq<PointRow>, x: PointRow | inv(a, ys) && LoadStepOf(s, q)(a, x).Ok?
      ensures inv(LoadStepOf(s, q)(a, x).value, ys + [x])
    {
      assert forall j :: 0 <= j < |ys| ==> (ys + [x])[j] == ys[j];
      assert (ys + [x])[|ys|] == x;
    }
    FoldHistory(LoadStepOf(s, q), inv, st, rows);
    LoadOk(s, q, st, rows);
  }

  /** Every loaded row gives its equipment an entry, and no entry goes. */
  lemma LoadEntries(s: Setup, q: Equip, st: LState, rows: seq<PointRow>)
    ensures var r := Load(s, q, st, rows);
      r.Ok? && st.pointMap.Keys <= r.value.pointMap.Keys &&
      forall j :: 0 <= j < |rows| && Takes(s, q, rows[j]) ==> rows[j].equipRef in r.value.pointMap
  {
    var inv := (a: LState, ys: seq<PointRow>) =>
      st.pointMap.Keys <= a.pointMap.Keys && forall j :: 0 <= j < |ys| && Takes(s, q, ys[j]) ==> ys[j].equipRef in a.pointMap;
    forall a: LState, ys: seq<PointRow>, x: PointRow | inv(a, ys) && LoadStepOf(s, q)(a, x).Ok?
      ensures inv(LoadStepOf(s, q)(a, x).value, ys + [x])
    {
      StepEntries(s, q, a, x);
      assert forall j :: 0 <= j < |ys| ==> (ys + [x])[j] == ys[j];
      assert (ys + [x])[|ys|] == x;
    }
    FoldHistory(LoadStepOf(s, q), inv, st, rows);
    LoadOk(s, q, st, rows);
  }

  /** The last loaded row of a slot decides its topic. */
  lemma LoadTopicLast(s: Setup, q: Equip, st: LState, rows: seq<PointRow>, i: nat)
    requires i < |rows| && Takes(s, q, rows[i])
    requires var e := rows[i].equipRef; var pt := rows[i].meta[s.metaField];
      forall j :: i < j < |rows| ==> !(Takes(s, q, rows[j]) && Slot(s, rows[j], e, pt))
    ensures var r := Load(s, q, st, rows);
      r.Ok? && Rcx.At(r.value.topicMap, rows[i].equipRef, rows[i].meta[s.metaField]) == Some(rows[i].topic)
  {
    var qq := (x: PointRow) => Takes(s, q, x);
    var rr := (x: PointRow, a: LState) => Takes(s, q, x) && Rcx.At(a.topicMap, x.equipRef, x.meta[s.metaField]) == Some(x.topic);
    var keep := (y: PointRow, x: PointRow) => !(Takes(s, q, y) && Takes(s, q, x) && Slot(s, x, y.equipRef, y.meta[s.metaField]));
    forall a: LState, x: PointRow | qq(x) && LoadStepOf(s, q)(a, x).Ok?
      ensures rr(x, LoadStepOf(s, q)(a, x).value)
    {
      StepSlot(s, q, a, x, x.equipRef, x.meta[s.metaField]);
    }
    forall a: LState, x: PointRow, y: PointRow | rr(y, a) && keep(y, x) && LoadStepOf(s, q)(a, x).Ok?
      ensures rr(y, LoadStepOf(s, q)(a, x).value)
    {
      StepSlot(s, q, a, x, y.equipRef, y.meta[s.metaField]);
    }
    FoldLast(LoadStepOf(s, q), qq, rr, keep, st, rows, i);
    LoadOk(s, q, st, rows);
  }

  /** A slot that no loaded row names keeps its topic and its point name. */
  lemma LoadUntouched(s: Setup, q: Equip, st: LState, rows: seq<PointRow>, e: string, pt: string)
    requires forall j :: 0 <= j < |rows| ==> !(Takes(s, q, rows[j]) && Slot(s, rows[j], e, pt))
    ensures var r := Load(s, q, st, rows);
      r.Ok? && Rcx.At(r.value.topicMap, e, pt) == Rcx.At(st.topicMap, e, pt) &&
      SlotName(r.value.pointMap, e, pt) == SlotName(st.pointMap, e, pt)
  {
    var inv := (a: LState, ys: seq<PointRow>) =>
      (forall j :: 0 <= j < |ys| ==> !(Takes(s, q, ys[j]) && Slot(s, ys[j], e, pt))) ==>
        Rcx.At(a.topicMap, e, pt) == Rcx.At(st.topicMap, e, pt) && SlotName(a.pointMap, e, pt) == SlotName(st.pointMap, e, pt);
    forall a: LState, ys: seq<PointRow>, x: PointRow | inv(a, ys) && LoadStepOf(s, q)(a, x).Ok?
      ensures inv(LoadStepOf(s, q)(a, x).value, ys + [x])
    {
      StepSlot(s, q, a, x, e, pt);
      assert forall j :: 0 <= j < |ys| ==> (ys + [x])[j] == ys[j];
      assert (ys + [x])[|ys|] == x;
    }
    FoldHistory(LoadStepOf(s, q), inv, st, rows);
    LoadOk(s, q, st, rows);
  }

  /** A point name, once there, is never replaced. */
  lemma LoadKeepsName(s: Setup, q: Equip, st: LState, rows: seq<PointRow>, e: string, pt: string)
    requires SlotName(st.pointMap, e, pt) != ""
    ensures var r := Load(s, q, st, rows);
      r.Ok? && SlotName(r.value.pointMap, e, pt) == SlotName(st.pointMap, e, pt)
  {
    var inv := (a: LState, ys: seq<PointRow>) => SlotName(a.pointMap, e, pt) == SlotName(st.pointMap, e, pt);
    forall a: LState, ys: seq<PointRow>, x: PointRow | inv(a, ys) && LoadStepOf(s, q)(a, x).Ok?
      ensures inv(LoadStepOf(s, q)(a, x).value, ys + [x])
    {
      StepSlot(s, q, a, x, e, pt);
    }
    FoldHistory(LoadStepOf(s, q), inv, st, rows);
    LoadOk(s, q, st, rows);
  }

  /** Without a named row, a slot's point name stays empty. */
  lemma LoadNoNameBefore(s: Setup, q: Equip, st: LState, rows: seq<PointRow>, e: string, pt: string)
    requires SlotName(st.pointMap, e, pt) == ""
    requires forall j :: 0 <= j < |rows| ==> !(Named(s, q, rows[j]) && Slot(s, rows[j], e, pt))
    ensures var r := Load(s, q, st, rows);
      r.Ok? && SlotName(r.value.pointMap, e, pt) == ""
  {
    var inv := (a: LState, ys: seq<PointRow>) =>
      (forall j :: 0 <= j < |ys| ==> !(Named(s, q, ys[j]) && Slot(s, ys[j], e, pt))) ==> SlotName(a.pointMap, e, pt) == "";
    forall a: LState, ys: seq<PointRow>, x: PointRow | inv(a, ys) && LoadStepOf(s, q)(a, x).Ok?
      ensures inv(LoadStepOf(s, q)(a, x).value, ys + [x])
    {
      StepSlot(s, q, a, x, e, pt);
      assert forall j :: 0 <= j < |ys| ==> (ys + [x])[j] == ys[j];
      assert (ys + [x])[|ys|] == x;
    }
    FoldHistory(LoadStepOf(s, q), inv, st, rows);
    LoadOk(s, q, st, rows);
  }

  /** The loop up to and including row `i`, and the loop after it. */
  lemma LoadSplit(s: Setup, q: Equip, st: LState, rows: seq<PointRow>, i: nat)
    requires i < |rows|
    ensures Load(s, q, st, rows[..i]).Ok?
    ensures Load(s, q, st, rows[..i + 1]) == Ok(LoadStep(s, q, Load(s, q, st, rows[..i]).value, rows[i]))
    ensures Load(s, q, st, rows) == Load(s, q, Load(s, q, st, rows[..i + 1]).value, rows[i + 1..])
  {
    LoadOk(s, q, st, rows[..i]);
    FoldSnoc(LoadStepOf(s, q), st, rows, i);
    FoldAppend(LoadStepOf(s, q), st, rows[..i + 1], rows[i + 1..]);
    assert rows[..i + 1] + rows[i + 1..] == rows;
  }

  /** The first named row of an empty slot decides its point name: later
      rows of the same slot do not replace it. */
  lemma LoadFirstName(s: Setup, q: Equip, st: LState, rows: seq<PointRow>, i: nat)
    requires i < |rows| && Named(s, q, rows[i])
    requires var e := rows[i].equipRef; var pt := rows[i].meta[s.metaField];
      SlotName(st.pointMap, e, pt) == "" &&
      forall j :: 0 <= j < i ==> !(Named(s, q, rows[j]) && Slot(s, rows[j], e, pt))
    ensures var r := Load(s, q, st, rows);
      r.Ok? && SlotName(r.value.pointMap, rows[i].equipRef, rows[i].meta[s.metaField]) == PointNameFromTopic(rows[i].topic)
  {
    var e := rows[i].equipRef;
    var pt := rows[i].meta[s.metaField];
    assert forall j :: 0 <= j < i ==> rows[..i][j] == rows[j];
    LoadNoNameBefore(s, q, st, rows[..i], e, pt);
    LoadSplit(s, q, st, rows, i);
    var st1 := Load(s, q, st, rows[..i]).value;
    StepSlot(s, q, st1, rows[i], e, pt);
    LoadKeepsName(s, q, LoadStep(s, q, st1, rows[i]), rows[i + 1..], e, pt);
  }

  /** A record, once there, is never emptied or removed. */
  lemma LoadKeepsRecords(s: Setup, q: Equip, st: LState, rows: seq<PointRow>, k: string)
    requires HasRecord(st.unmapped, k)
    ensures var r := Load(s, q, st, rows); r.Ok? && HasRecord(r.value.unmapped, k)
  {
    var inv := (a: LState, ys: seq<PointRow>) => HasRecord(a.unmapped, k);
    forall a: LState, ys: seq<PointRow>, x: PointRow | inv(a, ys) && LoadStepOf(s, q)(a, x).Ok?
      ensures inv(LoadStepOf(s, q)(a, x).value, ys + [x])
    {
      StepTable(s, q, a, x, k);
    }
    FoldHistory(LoadStepOf(s, q), inv, st, rows);
    LoadOk(s, q, st, rows);
  }

  /** Only equipment with a loaded row can have its record changed. */
  lemma LoadTableUntouched(s: Setup, q: Equip, st: LState, rows: seq<PointRow>, k: string)
    requires forall j :: 0 <= j < |rows| ==> !(Takes(s, q, rows[j]) && rows[j].equipRef == k)
    ensures var r := Load(s, q, st, rows);
      r.Ok? && (k in r.value.unmapped <==> k in st.unmapped) && (k in r.value.unmapped ==> r.value.unmapped[k] == st.unmapped[k])
  {
    var inv := (a: LState, ys: seq<PointRow>) =>
      (forall j :: 0 <= j < |ys| ==> !(Takes(s, q, ys[j]) && ys[j].equipRef == k)) ==>
        (k in a.unmapped <==> k in st.unmapped) && (k in a.unmapped ==> a.unmapped[k] == st.unmapped[k]);
    forall a: LState, ys: seq<PointRow>, x: PointRow | inv(a, ys) && LoadStepOf(s, q)(a, x).Ok?
      ensures inv(LoadStepOf(s, q)(a, x).value, ys + [x])
    {
      StepTable(s, q, a, x, k);
      assert forall j :: 0 <= j < |ys| ==> (ys + [x])[j] == ys[j];
      assert (ys + [x])[|ys|] == x;
    }
    FoldHistory(LoadStepOf(s, q), inv, st, rows);
    LoadOk(s, q, st, rows);
  }

  /** A loaded row whose topic gives no name leaves its equipment with a
      record. */
  lemma LoadNoName(s: Setup, q: Equip, st: LState, rows: seq<PointRow>, i: nat)
    requires i < |rows| && Takes(s, q, rows[i]) && PointNameFromTopic(rows[i].topic) == ""
    ensures var r := Load(s, q, st, rows); r.Ok? && HasRecord(r.value.unmapped, rows[i].equipRef)
  {
    var e := rows[i].equipRef;
    LoadSplit(s, q, st, rows, i);
    var st1 := Load(s, q, st, rows[..i]).value;
    StepTable(s, q, st1, rows[i], e);
    LoadKeepsRecords(s, q, LoadStep(s, q, st1, rows[i]), rows[i + 1..], e);
  }

  /** Two named rows of the same slot leave its equipment with a record:
      the second one writes the ambiguity. */
  lemma LoadAmbiguous(s: Setup, q: Equip, st: LState, rows: seq<PointRow>, i: nat, j: nat)
    requires i < j < |rows| && Named(s, q, rows[i]) && Named(s, q, rows[j])
    requires Slot(s, rows[j], rows[i].equipRef, rows[i].meta[s.metaField])
    ensures var r := Load(s, q, st, rows); r.Ok? && HasRecord(r.value.unmapped, rows[i].equipRef)
  {
    var e := rows[i].equipRef;
    var pt := rows[i].meta[s.metaField];
    var pre := rows[..j];
    assert pre[i] == rows[i];
    LoadSplit(s, q, st, pre, i);
    var st1 := Load(s, q, st, pre[..i]).value;
    StepSlot(s, q, st1, rows[i], e, pt);
    LoadKeepsName(s, q, LoadStep(s, q, st1, rows[i]), pre[i + 1..], e, pt);
    LoadSplit(s, q, st, rows, j);
    var st2 := Load(s, q, st, pre).value;
    StepTable(s, q, st2, rows[j], e);
    LoadKeepsRecords(s, q, LoadStep(s, q, st2, rows[j]), rows[j + 1..], e);
  }

  // ----- get_point_name -----

  /** The load-once step of `get_point_name`: the point rows are loaded
      while the point map is empty, against the meter and `vav_dict` of the
      moment. */
  function Reload(s: Setup, q: Equip, st: LState, rows: seq<PointRow>): LState {
    if st.pointMap != map[] then st
    else match Load(s, q, st, rows)
      case Ok(st1) => st1
      case Err(_) => st
  }

  /** Loading once is enough: a load that leaves the point map empty has
      loaded no row, so a second call changes nothing. */
  lemma ReloadIdem(s: Setup, q: Equip, st: LState, rows: seq<PointRow>)
    ensures Reload(s, q, Reload(s, q, st, rows), rows) == Reload(s, q, st, rows)
  {
    if st.pointMap == map[] {
      LoadEntries(s, q, st, rows);
      var st1 := Load(s, q, st, rows).value;
      if st1.pointMap == map[] {
        LoadIgnored(s, q, st1, rows);
      }
    }
  }

  /** `get_point_name(equip_id, _, role)`: the load-once step, then the
      role's meta value (a role outside `point_meta_map` raises `KeyError`),
      then the name at the equipment and meta value, `""` when there is
      none. */
  function PointNameCall(s: Setup, q: Equip, st: LState, rows: seq<PointRow>, e: string, role: string)
    : Result<(string, LState)>
  {
    var st1 := Reload(s, q, st, rows);
    match Get(s.metaMap, role)
    case None => Err("KeyError")
    case Some(pt) => Ok((SlotName(st1.pointMap, e, pt), st1))
  }

  /** On an unloaded generator, the name of an equipment's role is that of
      the first named row of the slot, whatever rows of the slot follow. */
  lemma PointNameFirst(s: Setup, q: Equip, st: LState, rows: seq<PointRow>, e: string, role: string, i: nat)
    requires st.pointMap == map[]
    requires Get(s.metaMap, role).Some? && i < |rows| && Named(s, q, rows[i])
    requires Slot(s, rows[i], e, Get(s.metaMap, role).value)
    requires forall j :: 0 <= j < i ==> !(Named(s, q, rows[j]) && Slot(s, rows[j], e, Get(s.metaMap, role).value))
    ensures PointNameCall(s, q, st, rows, e, role) == Ok((PointNameFromTopic(rows[i].topic), Reload(s, q, st, rows)))
  {
    LoadFirstName(s, q, st, rows, i);
  }

  /** On an unloaded generator, an equipment and role that no named row
      has give `""`: an absent equipment, an absent meta value, or only
      topics without a name. */
  lemma PointNameAbsent(s: Setup, q: Equip, st: LState, rows: seq<PointRow>, e: string, role: string)
    requires st.pointMap == map[] && Get(s.metaMap, role).Some?
    requires forall j :: 0 <= j < |rows| ==> !(Named(s, q, rows[j]) && Slot(s, rows[j], e, Get(s.metaMap, role).value))
    ensures PointNameCall(s, q, st, rows, e, role) == Ok(("", Reload(s, q, st, rows)))
  {
    LoadNoNameBefore(s, q, st, rows, e, Get(s.metaMap, role).value);
  }

  // ----- get_building_power_point -----

  /** `get_building_power_point`: the meter's `WholeBuildingPower` name when
      the meter id is non-empty, but `""` whenever the meter id has a
      record. */
  function PowerPoint(s: Setup, q: Equip, st: LState, rows: seq<PointRow>): Result<(string, LState)> {
    var r :- if HasMeter(q.meter) then PointNameCall(s, q, st, rows, q.meter.value, PowerKey) else Ok(("", st));
    if q.meter.Some? && HasRecord(r.1.unmapped, q.meter.value) then Ok(("", r.1)) else Ok(r)
  }

  /** The power point is non-empty exactly when the meter id is non-empty,
      has no record, and has a name for the power meta value; it is then
      that name. Without a meter id nothing is loaded. */
  lemma PowerPointSpec(s: Setup, q: Equip, st: LState, rows: seq<PointRow>)
    requires Get(s.metaMap, PowerKey) == Some(s.powerPointType)
    ensures var r := PowerPoint(s, q, st, rows);
      r.Ok? && (!HasMeter(q.meter) ==> r.value == ("", st)) &&
      (HasMeter(q.meter) ==> r.value.1 == Reload(s, q, st, rows)) &&
      (r.value.0 != "" <==>
        HasMeter(q.meter) && !HasRecord(r.value.1.unmapped, q.meter.value) &&
        SlotName(r.value.1.pointMap, q.meter.value, s.powerPointType) != "") &&
      (r.value.0 != "" ==> r.value.0 == SlotName(r.value.1.pointMap, q.meter.value, s.powerPointType))
  {
  }

  /** On an unloaded generator, a meter row whose topic gives no name, or
      two named power rows of the meter, leave the power point empty. */
  lemma PowerPointEmpty(s: Setup, q: Equip, st: LState, rows: seq<PointRow>, i: nat, j: nat)
    requires Get(s.metaMap, PowerKey) == Some(s.powerPointType) && st.pointMap == map[] && HasMeter(q.meter)
    requires i < |rows| && rows[i].equipRef == q.meter.value && Takes(s, q, rows[i])
    requires PointNameFromTopic(rows[i].topic) == "" ||
      (i < j < |rows| && Named(s, q, rows[i]) && Named(s, q, rows[j]) && Slot(s, rows[j], q.meter.value, rows[i].meta[s.metaField]))
    ensures PowerPoint(s, q, st, rows).Ok? && PowerPoint(s, q, st, rows).value.0 == ""
  {
    if PointNameFromTopic(rows[i].topic) == "" {
      LoadNoName(s, q, st, rows, i);
    } else {
      LoadAmbiguous(s, q, st, rows, i, j);
    }
  }

  /** On an unloaded generator, without a record for the meter, the power
      point is the name of the first named power row of the meter. */
  lemma PowerPointFirst(s: Setup, q: Equip, st: LState, rows: seq<PointRow>, i: nat)
    requires Get(s.metaMap, PowerKey) == Some(s.powerPointType) && st.pointMap == map[] && HasMeter(q.meter)
    requires i < |rows| && Named(s, q, rows[i]) && Slot(s, rows[i], q.meter.value, s.powerPointType)
    requires forall j :: 0 <= j < i ==> !(Named(s, q, rows[j]) && Slot(s, rows[j], q.meter.value, s.powerPointType))
    requires !HasRecord(Reload(s, q, st, rows).unmapped, q.meter.value)
    ensures PowerPoint(s, q, st, rows) == Ok((PointNameFromTopic(rows[i].topic), Reload(s, q, st, rows)))
  {
    PointNameFirst(s, q, st, rows, q.meter.value, PowerKey, i);
  }

  // ----- generate_ilc_config -----

  /** `generate_ilc_config` on this back-end: the meter lookup, whose
      `ValueError` becomes the error under `building_power_meter`; the meter
      field set to what the lookup returned; the power point, whose `KeyError`
      escapes; and the outcome, against the unmapped table as the point
      lookup left it. After the `ValueError` only the error matters, for the
      run stops there. */
  function IlcConfig(s: Setup, erows: seq<EquipRow>, prows: seq<PointRow>, q: Equip, st: LState)
    : Result<(IlcResult, Equip, LState)>
  {
    match PowerMeter(s, erows, q)
    case Err(msg) =>
      var i :- IlcConfigCg(s, Err(msg), Ok(""), st.unmapped);
      Ok((i, q, st))
    case Ok((m, q1)) =>
      var q2 := Equip(m, q1.vavs);
      var p :- PowerPoint(s, q2, st, prows);
      Outcome(s, q2, p.0, p.1)
  }

  /** The outcome once the meter and the power point are known. */
  function Outcome(s: Setup, q: Equip, point: string, st: LState): Result<(IlcResult, Equip, LState)> {
    var i :- IlcConfigCg(s, Ok(MeterStr(q.meter)), Ok(point), st.unmapped);
    Ok((i, q, st))
  }

  /** A written ILC config has loaded the point rows: its power point is in
      the point map. */
  lemma WrittenLoaded(s: Setup, erows: seq<EquipRow>, prows: seq<PointRow>, q: Equip, st: LState)
    ensures var r := IlcConfig(s, erows, prows, q, st);
      r.Ok? && r.value.0.Written? ==> r.value.2.pointMap != map[]
  {
    var pm := PowerMeter(s, erows, q);
    if pm.Ok? {
      var q2 := Equip(pm.value.0, pm.value.1.vavs);
      var p := PowerPoint(s, q2, st, prows);
      if p.Ok? {
        IlcOutcomeSpec(s, MeterStr(q2.meter), p.value.0, p.value.1.unmapped);
      }
    }
  }

  /** A failed ILC config is never an empty error dictionary. */
  lemma FailedNotEmpty(s: Setup, erows: seq<EquipRow>, prows: seq<PointRow>, q: Equip, st: LState)
    ensures var r := IlcConfig(s, erows, prows, q, st);
      r.Ok? && r.value.0.Failed? ==> r.value.0.error != map[]
  {
    var pm := PowerMeter(s, erows, q);
    if pm.Err? {
      FailedNonEmpty(s, Err(pm.msg), Ok(""), st.unmapped);
    } else {
      var q2 := Equip(pm.value.0, pm.value.1.vavs);
      var p := PowerPoint(s, q2, st, prows);
      if p.Ok? {
        FailedNonEmpty(s, Ok(MeterStr(pm.value.0)), Ok(p.value.0), p.value.1.unmapped);
      }
    }
  }

  // ----- generate_configs -----

  /** The names the VAV loops find once the point rows are loaded. A role
      outside `point_meta_map` gives `""` here; the loops only ask for roles
      of the map. */
  function VavNames(s: Setup, pm: map<string, map<string, string>>): (string, string) -> string {
    (e: string, role: string) => match Get(s.metaMap, role)
      case None => ""
      case Some(pt) => SlotName(pm, e, pt)
  }

  /** `get_point_name` as the VAV loops see it: the point map is loaded, so
      nothing is loaded again and neither the state nor the table changes. */
  function VavLookup(s: Setup, pm: map<string, map<string, string>>): PointName<()> {
    (u: (), t: Table, e: string, role: string) => Found(VavNames(s, pm)(e, role), (), t)
  }

  /** Once loaded, the lookups of the VAV loops are those of
      `get_point_name` for every role of `point_meta_map`. */
  lemma VavLookupAgrees(s: Setup, q: Equip, st: LState, rows: seq<PointRow>, e: string, role: string)
    requires st.pointMap != map[] && Get(s.metaMap, role).Some?
    ensures PointNameCall(s, q, st, rows, e, role) == Ok((VavLookup(s, st.pointMap)((), st.unmapped, e, role).name, st))
    ensures VavLookup(s, st.pointMap)((), st.unmapped, e, role).unmapped == st.unmapped
  {
    assert Reload(s, q, st, rows) == st;
    assert VavNames(s, st.pointMap)(e, role) == SlotName(st.pointMap, e, Get(s.metaMap, role).value);
  }

  /** The loaded lookups name by the loaded map alone and leave the table
      alone. */
  lemma VavLookupShape(s: Setup, pm: map<string, map<string, string>>)
    ensures NamesBy(VavLookup(s, pm), VavNames(s, pm)) && ReadOnly(VavLookup(s, pm)) && KeepsRecords(VavLookup(s, pm))
  {
  }

  /** `generate_configs` on this back-end, from the generator's state: the
      ILC config, then the two VAV loops over `vav_dict`. */
  function Generate(s: Setup, erows: seq<EquipRow>, prows: seq<PointRow>, q: Equip, st: LState): Result<IlcRun> {
    var c :- IlcConfig(s, erows, prows, q, st);
    var (ilc, q1, st1) := c;
    Run(s, ilc, VavLookup(s, st1.pointMap), (), st1.unmapped, q1.vavs)
  }

  /** A failed ILC config ends the run with its errors, no VAV output and
      exit status 1. */
  lemma GenerateFailed(s: Setup, erows: seq<EquipRow>, prows: seq<PointRow>, q: Equip, st: LState)
    ensures var c := IlcConfig(s, erows, prows, q, st);
      c.Ok? && c.value.0.Failed? ==>
        Generate(s, erows, prows, q, st) == Ok(IlcRun(None, [], [], c.value.0.error, FirstFiles(s), [], 1))
  {
    FailedNotEmpty(s, erows, prows, q, st);
  }

  /** With the ILC config written, each VAV of `vav_dict` gets its control
      (criteria) entry when every control (criteria) role has a name, and
      otherwise a record and exit status 1; every entry's topic is the
      prefix and its key. */
  lemma GenerateCovers(s: Setup, erows: seq<EquipRow>, prows: seq<PointRow>, q: Equip, st: LState, i: nat)
    ensures var c := IlcConfig(s, erows, prows, q, st);
      c.Ok? && c.value.0.Written? && i < |c.value.1.vavs| ==>
        var r := Generate(s, erows, prows, q, st);
        var names := VavNames(s, c.value.2.pointMap);
        var vavs := c.value.1.vavs;
        var key := VavKey(vavs[i].0, vavs[i].1);
        r.Ok? ==>
          (Complete(names, vavs[i].0, ControlTypes(s)) ==> Get(r.value.control, key).Some?) &&
          (Complete(names, vavs[i].0, CriteriaTypes(s)) ==> Get(r.value.criteria, key).Some?) &&
          (!Complete(names, vavs[i].0, ControlTypes(s)) || !Complete(names, vavs[i].0, CriteriaTypes(s)) ==>
            HasRecord(r.value.errors, vavs[i].0) && r.value.status == 1)
  {
    var c := IlcConfig(s, erows, prows, q, st);
    if c.Ok? && c.value.0.Written? && i < |c.value.1.vavs| {
      var pm := c.value.2.pointMap;
      VavLookupShape(s, pm);
      RunCovers(s, c.value.0, VavLookup(s, pm), VavNames(s, pm), (), c.value.2.unmapped, c.value.1.vavs, i);
    }
  }

  /** Every emitted entry's device topic is the prefix and its key. */
  lemma GenerateTopics(s: Setup, erows: seq<EquipRow>, prows: seq<PointRow>, q: Equip, st: LState)
    ensures var r := Generate(s, erows, prows, q, st);
      r.Ok? ==> TopicsMatch(s, r.value.control) && TopicsMatch(s, r.value.criteria)
  {
    var c := IlcConfig(s, erows, prows, q, st);
    if c.Ok? {
      var pm := c.value.2.pointMap;
      VavLookupShape(s, pm);
      RunTopics(s, c.value.0, VavLookup(s, pm), VavNames(s, pm), (), c.value.2.unmapped, c.value.1.vavs);
    }
  }

  // ----- the generator -----

  class JsonIlcGenerator {
    const setup: Setup
    /** `equip_json["rows"]` and `points_json["rows"]` */
    const equipRows: seq<EquipRow>
    const pointRows: seq<PointRow>
    /** `power_meter_id` */
    var meter: Option<string>
    /** `vav_dict` */
    var vavs: ODict<string>
    /** `equip_id_point_map` */
    var pointMap: map<string, map<string, string>>
    /** `equip_id_point_topic_map` */
    var topicMap: map<string, map<string, string>>
    /** `unmapped_device_details` */
    var unmapped: Table

    function EquipState(): Equip
      reads this
    {
      Equip(meter, vavs)
    }

    function PointState(): LState
      reads this
    {
      LState(pointMap, topicMap, unmapped)
    }

    constructor (setup: Setup, equipRows: seq<EquipRow>, pointRows: seq<PointRow>)
      ensures this.setup == setup && this.equipRows == equipRows && this.pointRows == pointRows
      ensures EquipState() == Equip(None, []) && PointState() == LState(map[], map[], map[])
    {
      this.setup := setup;
      this.equipRows := equipRows;
      this.pointRows := pointRows;
      meter := None;
      vavs := [];
      pointMap := map[];
      topicMap := map[];
      unmapped := map[];
    }

    /** `_populate_equip_details` */
    method PopulateEquipDetails() returns (r: Result<()>)
      modifies this
      ensures PointState() == old(PointState())
      ensures var e := Populate(setup, old(EquipState()), equipRows);
        (r.Ok? <==> e.Ok?) && (r.Ok? ==> EquipState() == e.value)
    {
      ghost var q0 := EquipState();
      var i := 0;
      while i < |equipRows|
        invariant 0 <= i <= |equipRows|
        invariant Populate(setup, q0, equipRows[..i]) == Ok(EquipState())
        invariant PointState() == old(PointState())
      {
        FoldSnoc(PopulateStepOf(setup), q0, equipRows, i);
        var row := equipRows[i];
        var isMeter := if setup.configuredMeterId != "" then row.id == setup.configuredMeterId else MeterTag in row.tags;
        if isMeter {
          if meter.Some? {
            FoldPrefixErr(PopulateStepOf(setup), q0, equipRows, i + 1);
            return Err("ValueError");
          }
          meter := Some(row.id);
        }
        if "vav" in row.tags {
          vavs := Put(vavs, row.id, AhuRefOr(row));
        }
        i := i + 1;
      }
      assert equipRows[..i] == equipRows;
      r := Ok(());
    }

    /** `get_building_power_meter` */
    method GetBuildingPowerMeter() returns (r: Result<Option<string>>)
      modifies this
      ensures PointState() == old(PointState())
      ensures var e := PowerMeter(setup, equipRows, old(EquipState()));
        (r.Ok? <==> e.Ok?) && (r.Ok? ==> r.value == e.value.0 && EquipState() == e.value.1) &&
        (r.Err? ==> r.msg == e.msg)
    {
      if HasMeter(meter) {
        return Ok(None);
      }
      var done := PopulateEquipDetails();
      if done.Err? {
        return Err(TwoMetersMsg(setup));
      }
      r := Ok(meter);
    }

    /** One point row of the loading loop of `get_point_name`. */
    method LoadRow(row: PointRow)
      modifies this
      ensures EquipState() == old(EquipState())
      ensures PointState() == LoadStep(setup, EquipState(), old(PointState()), row)
    {
      if !Takes(setup, EquipState(), row) {
        return;
      }
      var e := row.equipRef;
      var pt := row.meta[setup.metaField];
      var ty := EquipType(EquipState(), e);
      topicMap := topicMap[e := Rcx.EntryOf(topicMap, e)[pt := row.topic]];
      var names := Rcx.EntryOf(pointMap, e);
      pointMap := pointMap[e := names];
      var name := PointNameFromTopic(row.topic);
      if name == "" {
        unmapped := unmapped[e := TopicRecord(ty, NoNameMsg, JStr(row.topic))];
      } else if Rcx.NameIn(names, pt) != "" {
        unmapped := unmapped[e := TopicRecord(ty, AmbiguousMsg(setup, pt), JStr(row.topic))];
      } else {
        pointMap := pointMap[e := names[pt := name]];
      }
    }

    /** The loading loop of `get_point_name`. */
    method LoadPoints()
      modifies this
      ensures EquipState() == old(EquipState())
      ensures Load(setup, EquipState(), old(PointState()), pointRows) == Ok(PointState())
    {
      ghost var st0 := PointState();
      var i := 0;
      while i < |pointRows|
        invariant 0 <= i <= |pointRows|
        invariant EquipState() == old(EquipState())
        invariant Load(setup, EquipState(), st0, pointRows[..i]) == Ok(PointState())
      {
        FoldSnoc(LoadStepOf(setup, EquipState()), st0, pointRows, i);
        LoadRow(pointRows[i]);
        i := i + 1;
      }
      assert pointRows[..i] == pointRows;
    }

    /** `get_point_name(equip_id, _, role)` */
    method GetPointName(e: string, role: string) returns (r: Result<string>)
      modifies this
      ensures EquipState() == old(EquipState())
      ensures var c := PointNameCall(setup, EquipState(), old(PointState()), pointRows, e, role);
        (r.Ok? <==> c.Ok?) && (r.Ok? ==> r.value == c.value.0 && PointState() == c.value.1)
    {
      if pointMap == map[] {
        LoadPoints();
      }
      var pt := Get(setup.metaMap, role);
      if pt.None? {
        return Err("KeyError");
      }
      r := Ok(SlotName(pointMap, e, pt.value));
    }

    /** `get_building_power_point` */
    method GetBuildingPowerPoint() returns (r: Result<string>)
      modifies this
      ensures EquipState() == old(EquipState())
      ensures var c := PowerPoint(setup, EquipState(), old(PointState()), pointRows);
        (r.Ok? <==> c.Ok?) && (r.Ok? ==> r.value == c.value.0 && PointState() == c.value.1)
    {
      var name := "";
      if HasMeter(meter) {
        var found := GetPointName(meter.value, PowerKey);
        if found.Err? {
          return Err(found.msg);
        }
        name := found.value;
      }
      if meter.Some? && HasRecord(unmapped, meter.value) {
        return Ok("");
      }
      r := Ok(name);
    }

    /** `generate_ilc_config` */
    method GenerateIlcConfig() returns (r: Result<IlcResult>)
      modifies this
      ensures var c := IlcConfig(setup, equipRows, pointRows, old(EquipState()), old(PointState()));
        (r.Ok? <==> c.Ok?) && (r.Ok? ==> r.value == c.value.0) &&
        (r.Ok? && PowerMeter(setup, equipRows, old(EquipState())).Ok? ==>
          EquipState() == c.value.1 && PointState() == c.value.2)
    {
      var m := GetBuildingPowerMeter();
      if m.Err? {
        return IlcConfigCg(setup, Err(m.msg), Ok(""), unmapped);
      }
      meter := m.value;
      var point := GetBuildingPowerPoint();
      if point.Err? {
        return Err(point.msg);
      }
      ghost var c := Outcome(setup, EquipState(), point.value, PointState());
      assert IlcConfig(setup, equipRows, pointRows, old(EquipState()), old(PointState())) == c;
      r := IlcConfigCg(setup, Ok(MeterStr(meter)), Ok(point.value), unmapped);
      assert r.Ok? <==> c.Ok?;
    }

    /** `generate_configs`, after the pairwise step: the ILC config, then
        the VAV loops of the base over `vav_dict`, with the point map the
        ILC config loaded. */
    method GenerateConfigs() returns (r: Result<IlcRun>)
      modifies this
      ensures var g := Generate(setup, equipRows, pointRows, old(EquipState()), old(PointState()));
        (r.Ok? <==> g.Ok?) && (r.Ok? ==> r.value == g.value)
    {
      ghost var q0, st0 := EquipState(), PointState();
      var ilc := GenerateIlcConfig();
      if ilc.Err? {
        return Err(ilc.msg);
      }
      FailedNotEmpty(setup, equipRows, pointRows, q0, st0);
      var gen := new IlcGenerator<()>(setup, VavLookup(setup, pointMap), (), unmapped);
      r := gen.GenerateConfigs(ilc.value, vavs);
      unmapped := gen.unmapped;
    }
  }
}
