/** The `config_generators` ILC generator over the Postgres tag tables
    (`IntellimationILCConfigGenerator`). The meter is the one row of the
    meter query, and more than one row is a `ValueError`. A point is the one
    row of its point query; several rows leave it empty, with a record that
    lists all their topics. `get_vavs_with_ahuref` runs its query while its
    cache is empty. The VAV loops are those of `Ilc`. */
module IlcCgDb {
  import opened Wrappers
  import opened Json
  import opened Names
  import opened Rows
  import opened ODicts
  import opened Ilc
  import opened IlcGen
  import Rcx

  /** What the generator is given: the base's setup and the results of its
      queries against one snapshot of the tables. These are the ids the
      meter query returns (with the site filter; by `power_meter_id` when it
      is configured, by the `siteMeter` tag otherwise), the `(id, ahuRef)`
      rows of the VAV query (a NULL `ahuRef` as `""`, for only its truth is
      read), and the point table that the point queries read. */
  datatype DbSetup = DbSetup(base: Setup, meterIds: seq<string>, vavRows: seq<(string, string)>,
                             pointRows: seq<PointRow>)

  /** `equip_id_point_topic_map` and `unmapped_device_details`. */
  datatype DState = DState(topicMap: map<string, map<string, string>>, unmapped: Table)

  // ----- get_building_power_meter -----

  /** `get_building_power_meter`: the id of the one row, `""` without rows,
      and the `ValueError` with more than one. */
  function PowerMeter(s: DbSetup): Result<string> {
    if |s.meterIds| == 1 then Ok(s.meterIds[0])
    else if |s.meterIds| > 1 then Err(TwoMetersMsg(s.base))
    else Ok("")
  }

  /** Exactly one meter is accepted: the lookup succeeds exactly when the
      query returns at most one row, and then the rows are that id alone or
      none with `""`; more than one fails with the message that names the
      configured id or the tag. */
  lemma PowerMeterSpec(s: DbSetup)
    ensures var r := PowerMeter(s);
      (r.Ok? <==> |s.meterIds| <= 1) &&
      (r.Ok? ==> s.meterIds == (if r.value == "" && s.meterIds == [] then [] else [r.value])) &&
      (r.Err? ==> r.msg == TwoMetersMsg(s.base))
  {
  }

  // ----- get_topic_by_point_type, get_point_name -----

  /** The rows of the point query of an equipment and meta value. */
  function Topics(s: DbSetup, e: string, pt: string): seq<string> {
    TopicQuery(s.pointRows, s.base.metaField, e, pt)
  }

  /** The point query at a meta value: one row gives its topic, recorded
      under the equipment and meta value; several give `""` and a record of
      type `ty` holding all their topics; none gives `""`. */
  function TopicAt(s: DbSetup, st: DState, e: string, ty: string, pt: string): (string, DState) {
    var ts := Topics(s, e, pt);
    if |ts| == 1 then (ts[0], st.(topicMap := st.topicMap[e := Rcx.EntryOf(st.topicMap, e)[pt := ts[0]]]))
    else if |ts| > 1 then ("", st.(unmapped := st.unmapped[e := TopicRecord(ty, AmbiguousMsg(s.base, pt), JArr(StrItems(ts)))]))
    else ("", st)
  }

  /** `get_point_name(equip_id, ty, role)`: the role's meta value (a role
      outside `point_meta_map` raises `KeyError`), its topic, and the point
      name of the topic. */
  function PointNameCall(s: DbSetup, st: DState, e: string, ty: string, role: string): Result<(string, DState)> {
    match Get(s.base.metaMap, role)
    case None => Err("KeyError")
    case Some(pt) =>
      var (topic, st1) := TopicAt(s, st, e, ty, pt);
      Ok((PointNameFromTopic(topic), st1))
  }

  /** A meta value with no point row gives `""` and changes nothing. */
  lemma TopicAtNone(s: DbSetup, st: DState, e: string, ty: string, pt: string)
    requires forall j :: 0 <= j < |s.pointRows| ==> !Matches(s.pointRows[j], s.base.metaField, e, pt)
    ensures TopicAt(s, st, e, ty, pt) == ("", st)
  {
    TopicQueryFirst(s.pointRows, s.base.metaField, e, pt);
  }

  /** A meta value with exactly one point row gives that row's topic and
      records it under the equipment and meta value; other equipment and
      the table are untouched. */
  lemma TopicAtOne(s: DbSetup, st: DState, e: string, ty: string, pt: string, i: nat)
    requires i < |s.pointRows| && Matches(s.pointRows[i], s.base.metaField, e, pt)
    requires forall j :: 0 <= j < |s.pointRows| && j != i ==> !Matches(s.pointRows[j], s.base.metaField, e, pt)
    ensures var (topic, st1) := TopicAt(s, st, e, ty, pt);
      topic == s.pointRows[i].topic && st1.unmapped == st.unmapped &&
      Rcx.At(st1.topicMap, e, pt) == Some(topic) &&
      forall k :: k != e ==> Rcx.EntryOf(st1.topicMap, k) == Rcx.EntryOf(st.topicMap, k)
  {
    TopicQueryOne(s.pointRows, s.base.metaField, e, pt, i);
  }

  /** Two point rows of the same meta value give `""` and a record of the
      equipment listing every topic of the query, in table order; the topic
      map is untouched. */
  lemma TopicAtTwo(s: DbSetup, st: DState, e: string, ty: string, pt: string, i: nat, j: nat)
    requires i < j < |s.pointRows|
    requires Matches(s.pointRows[i], s.base.metaField, e, pt) && Matches(s.pointRows[j], s.base.metaField, e, pt)
    ensures var (topic, st1) := TopicAt(s, st, e, ty, pt);
      topic == "" && st1.topicMap == st.topicMap && HasRecord(st1.unmapped, e) &&
      st1.unmapped[e] == TopicRecord(ty, AmbiguousMsg(s.base, pt), JArr(StrItems(Topics(s, e, pt)))) &&
      forall k :: k != e ==> (k in st1.unmapped <==> k in st.unmapped) && (k in st.unmapped ==> st1.unmapped[k] == st.unmapped[k])
  {
    TopicQueryTwo(s.pointRows, s.base.metaField, e, pt, i, j);
    assert "type" in TopicRecord(ty, AmbiguousMsg(s.base, pt), JArr(StrItems(Topics(s, e, pt))));
  }

  /** A non-empty point name comes from the one row of its point query. */
  lemma PointNameUnique(s: DbSetup, st: DState, e: string, ty: string, role: string)
    requires Get(s.base.metaMap, role).Some?
    ensures var r := PointNameCall(s, st, e, ty, role); var pt := Get(s.base.metaMap, role).value;
      r.Ok? && (r.value.0 != "" ==>
        exists i :: (0 <= i < |s.pointRows| && Matches(s.pointRows[i], s.base.metaField, e, pt) &&
                     (forall j :: 0 <= j < |s.pointRows| && j != i ==> !Matches(s.pointRows[j], s.base.metaField, e, pt)) &&
                     r.value.0 == PointNameFromTopic(s.pointRows[i].topic)))
  {
    var pt := Get(s.base.metaMap, role).value;
    var ts := Topics(s, e, pt);
    if |ts| == 1 {
      TopicQuerySingle(s.pointRows, s.base.metaField, e, pt);
    } else {
      PointNameFromTopicSpec("");
    }
  }

  // ----- get_building_power_point -----

  /** `get_building_power_point`: the meter's `WholeBuildingPower` name when
      the meter id is non-empty, but `""` whenever the meter id has a
      record. */
  function PowerPoint(s: DbSetup, meter: string, st: DState): Result<(string, DState)> {
    var r :- if meter != "" then PointNameCall(s, st, meter, "power_meter", PowerKey) else Ok(("", st));
    if HasRecord(r.1.unmapped, meter) then Ok(("", r.1)) else Ok(r)
  }

  /** Two power rows of the meter leave the power point empty, with a
      record for the meter of type `power_meter`. */
  lemma PowerPointTwo(s: DbSetup, meter: string, st: DState, i: nat, j: nat)
    requires Get(s.base.metaMap, PowerKey) == Some(s.base.powerPointType) && meter != ""
    requires i < j < |s.pointRows|
    requires Matches(s.pointRows[i], s.base.metaField, meter, s.base.powerPointType)
    requires Matches(s.pointRows[j], s.base.metaField, meter, s.base.powerPointType)
    ensures var r := PowerPoint(s, meter, st);
      r.Ok? && r.value.0 == "" && HasRecord(r.value.1.unmapped, meter) &&
      r.value.1.unmapped[meter] ==
        TopicRecord("power_meter", AmbiguousMsg(s.base, s.base.powerPointType), JArr(StrItems(Topics(s, meter, s.base.powerPointType))))
  {
    TopicAtTwo(s, st, meter, "power_meter", s.base.powerPointType, i, j);
  }

  /** One power row of a meter without a record gives that row's point
      name. */
  lemma PowerPointOne(s: DbSetup, meter: string, st: DState, i: nat)
    requires Get(s.base.metaMap, PowerKey) == Some(s.base.powerPointType) && meter != ""
    requires !HasRecord(st.unmapped, meter)
    requires i < |s.pointRows| && Matches(s.pointRows[i], s.base.metaField, meter, s.base.powerPointType)
    requires forall j :: 0 <= j < |s.pointRows| && j != i ==>
      !Matches(s.pointRows[j], s.base.metaField, meter, s.base.powerPointType)
    ensures var r := PowerPoint(s, meter, st);
      r.Ok? && r.value.0 == PointNameFromTopic(s.pointRows[i].topic)
  {
    TopicAtOne(s, st, meter, "power_meter", s.base.powerPointType, i);
  }

  /** A meter id that already has a record gets no power point. */
  lemma PowerPointRecorded(s: DbSetup, meter: string, st: DState)
    requires HasRecord(st.unmapped, meter)
    ensures var r := PowerPoint(s, meter, st); r.Ok? ==> r.value.0 == ""
  {
    if meter != "" {
      var pt := Get(s.base.metaMap, PowerKey);
      if pt.Some? {
        var ts := Topics(s, meter, pt.value);
        assert "type" in TopicRecord("power_meter", AmbiguousMsg(s.base, pt.value), JArr(StrItems(ts)));
      }
    }
  }

  // ----- generate_ilc_config -----

  /** `generate_ilc_config` on this back-end: the meter query (its
      `ValueError` becomes the error under `building_power_meter`), the
      power point (whose `KeyError` escapes), and the outcome, against the
      unmapped table as the point lookup left it. */
  function IlcConfig(s: DbSetup, st: DState): Result<(IlcResult, DState)> {
    match PowerMeter(s)
    case Err(msg) =>
      var i :- IlcConfigCg(s.base, Err(msg), Ok(""), st.unmapped);
      Ok((i, st))
    case Ok(m) =>
      var p :- PowerPoint(s, m, st);
      var i :- IlcConfigCg(s.base, Ok(m), Ok(p.0), p.1.unmapped);
      Ok((i, p.1))
  }

  /** A failed ILC config is never an empty error dictionary. */
  lemma FailedNotEmpty(s: DbSetup, st: DState)
    ensures var r := IlcConfig(s, st); r.Ok? && r.value.0.Failed? ==> r.value.0.error != map[]
  {
    var m := PowerMeter(s);
    if m.Err? {
      FailedNonEmpty(s.base, Err(m.msg), Ok(""), st.unmapped);
    } else {
      var p := PowerPoint(s, m.value, st);
      if p.Ok? {
        FailedNonEmpty(s.base, Ok(m.value), Ok(p.value.0), p.value.1.unmapped);
      }
    }
  }

  // ----- generate_configs -----

  /** The names of the VAV loops: the point name of the one row of the
      role's point query, `""` otherwise. A role outside `point_meta_map`
      gives `""` here; the loops only ask for roles of the map. */
  function DbNames(s: DbSetup): (string, string) -> string {
    (e: string, role: string) => match Get(s.base.metaMap, role)
      case None => ""
      case Some(pt) => var ts := Topics(s, e, pt); if |ts| == 1 then PointNameFromTopic(ts[0]) else ""
  }

  /** `get_point_name(vav_id, "vav", role)` over the topic map and the
      table. */
  function DbPointName(s: DbSetup): PointName<map<string, map<string, string>>> {
    (tm: map<string, map<string, string>>, t: Table, e: string, role: string) =>
      match Get(s.base.metaMap, role)
      case None => Found("", tm, t)
      case Some(pt) =>
        var (topic, st1) := TopicAt(s, DState(tm, t), e, "vav", pt);
        Found(PointNameFromTopic(topic), st1.topicMap, st1.unmapped)
  }

  /** For every role of `point_meta_map`, the loops' lookup is
      `get_point_name`. */
  lemma DbPointNameAgrees(s: DbSetup, st: DState, e: string, role: string)
    requires Get(s.base.metaMap, role).Some?
    ensures var f := DbPointName(s)(st.topicMap, st.unmapped, e, role);
      PointNameCall(s, st, e, "vav", role) == Ok((f.name, DState(f.st, f.unmapped)))
  {
  }

  /** The names do not depend on the state, and no record is ever removed or
      emptied. */
  lemma DbPointNameShape(s: DbSetup)
    ensures NamesBy(DbPointName(s), DbNames(s)) && KeepsRecords(DbPointName(s))
  {
    forall tm: map<string, map<string, string>>, t: Table, e: string, role: string
      ensures DbPointName(s)(tm, t, e, role).name == DbNames(s)(e, role)
    {
      if Get(s.base.metaMap, role).Some? && |Topics(s, e, Get(s.base.metaMap, role).value)| != 1 {
        PointNameFromTopicSpec("");
      }
    }
    forall tm: map<string, map<string, string>>, t: Table, e: string, role: string, k: string | HasRecord(t, k)
      ensures HasRecord(DbPointName(s)(tm, t, e, role).unmapped, k)
    {
      if Get(s.base.metaMap, role).Some? {
        var pt := Get(s.base.metaMap, role).value;
        assert "type" in TopicRecord("vav", AmbiguousMsg(s.base, pt), JArr(StrItems(Topics(s, e, pt))));
      }
    }
  }

  /** What `get_vavs_with_ahuref` returns: the cache, or the query while
      the cache is empty. */
  function VavsOf(s: DbSetup, cache: seq<(string, string)>): seq<(string, string)> {
    if cache == [] then s.vavRows else cache
  }

  /** `generate_configs` on this back-end, from the generator's state: the
      ILC config, then the two VAV loops over the VAV rows. */
  function Generate(s: DbSetup, st: DState, cache: seq<(string, string)>): Result<IlcRun> {
    var c :- IlcConfig(s, st);
    Run(s.base, c.0, DbPointName(s), c.1.topicMap, c.1.unmapped, VavsOf(s, cache))
  }

  /** A failed ILC config ends the run with its errors, no VAV output and
      exit status 1. */
  lemma GenerateFailed(s: DbSetup, st: DState, cache: seq<(string, string)>)
    ensures var c := IlcConfig(s, st);
      c.Ok? && c.value.0.Failed? ==>
        Generate(s, st, cache) == Ok(IlcRun(None, [], [], c.value.0.error, FirstFiles(s.base), [], 1))
  {
    FailedNotEmpty(s, st);
  }

  /** With the ILC config written, each VAV row gets its control (criteria)
      entry when every control (criteria) role has a name, and otherwise a
      record and exit status 1. */
  lemma GenerateCovers(s: DbSetup, st: DState, i: nat)
    ensures var c := IlcConfig(s, st);
      c.Ok? && c.value.0.Written? && i < |s.vavRows| ==>
        var r := Generate(s, st, []);
        var vavs := s.vavRows;
        var key := VavKey(vavs[i].0, vavs[i].1);
        r.Ok? ==>
          (Complete(DbNames(s), vavs[i].0, ControlTypes(s.base)) ==> Get(r.value.control, key).Some?) &&
          (Complete(DbNames(s), vavs[i].0, CriteriaTypes(s.base)) ==> Get(r.value.criteria, key).Some?) &&
          (!Complete(DbNames(s), vavs[i].0, ControlTypes(s.base)) || !Complete(DbNames(s), vavs[i].0, CriteriaTypes(s.base)) ==>
            HasRecord(r.value.errors, vavs[i].0) && r.value.status == 1)
  {
    var c := IlcConfig(s, st);
    if c.Ok? && c.value.0.Written? && i < |s.vavRows| {
      DbPointNameShape(s);
      RunCovers(s.base, c.value.0, DbPointName(s), DbNames(s), c.value.1.topicMap, c.value.1.unmapped, s.vavRows, i);
    }
  }

  /** Every emitted entry's device topic is the prefix and its key. */
  lemma GenerateTopics(s: DbSetup, st: DState, cache: seq<(string, string)>)
    ensures var r := Generate(s, st, cache);
      r.Ok? ==> TopicsMatch(s.base, r.value.control) && TopicsMatch(s.base, r.value.criteria)
  {
    var c := IlcConfig(s, st);
    if c.Ok? {
      DbPointNameShape(s);
      RunTopics(s.base, c.value.0, DbPointName(s), DbNames(s), c.value.1.topicMap, c.value.1.unmapped, VavsOf(s, cache));
    }
  }

  // ----- the generator -----

  class DbIlcGenerator {
    const setup: DbSetup
    /** `equip_id_point_topic_map` */
    var topicMap: map<string, map<string, string>>
    /** `unmapped_device_details` */
    var unmapped: Table
    /** `vavs_and_ahuref` */
    var vavCache: seq<(string, string)>

    function State(): DState
      reads this
    {
      DState(topicMap, unmapped)
    }

    constructor (setup: DbSetup)
      ensures this.setup == setup && State() == DState(map[], map[]) && vavCache == []
    {
      this.setup := setup;
      topicMap := map[];
      unmapped := map[];
      vavCache := [];
    }

    /** `get_building_power_meter` */
    method GetBuildingPowerMeter() returns (r: Result<string>)
      ensures r == PowerMeter(setup)
    {
      var ids := setup.meterIds;
      if |ids| == 1 {
        return Ok(ids[0]);
      }
      if |ids| > 1 {
        return Err(TwoMetersMsg(setup.base));
      }
      r := Ok("");
    }

    /** `get_topic_by_point_type` followed by `get_point_name_from_topic`:
        `get_point_name`. */
    method GetPointName(e: string, ty: string, role: string) returns (r: Result<string>)
      modifies this
      ensures vavCache == old(vavCache)
      ensures var c := PointNameCall(setup, old(State()), e, ty, role);
        (r.Ok? <==> c.Ok?) && (r.Ok? ==> r.value == c.value.0 && State() == c.value.1)
    {
      var pt := Get(setup.base.metaMap, role);
      if pt.None? {
        return Err("KeyError");
      }
      var ts := TopicQuery(setup.pointRows, setup.base.metaField, e, pt.value);
      var topic := "";
      if |ts| == 1 {
        topic := ts[0];
        topicMap := topicMap[e := Rcx.EntryOf(topicMap, e)[pt.value := topic]];
      } else if |ts| > 1 {
        unmapped := unmapped[e := TopicRecord(ty, AmbiguousMsg(setup.base, pt.value), JArr(StrItems(ts)))];
      }
      r := Ok(PointNameFromTopic(topic));
    }

    /** `get_building_power_point`, with `power_meter_id` given. */
    method GetBuildingPowerPoint(meter: string) returns (r: Result<string>)
      modifies this
      ensures vavCache == old(vavCache)
      ensures var c := PowerPoint(setup, meter, old(State()));
        (r.Ok? <==> c.Ok?) && (r.Ok? ==> r.value == c.value.0 && State() == c.value.1)
    {
      var name := "";
      if meter != "" {
        var found := GetPointName(meter, "power_meter", PowerKey);
        if found.Err? {
          return Err(found.msg);
        }
        name := found.value;
      }
      if HasRecord(unmapped, meter) {
        return Ok("");
      }
      r := Ok(name);
    }

    /** `get_vavs_with_ahuref`: the query runs only while the cache is
        empty. */
    method GetVavsWithAhuref() returns (vavs: seq<(string, string)>)
      modifies this
      ensures State() == old(State())
      ensures vavs == VavsOf(setup, old(vavCache)) && vavCache == vavs
    {
      if vavCache == [] {
        vavCache := setup.vavRows;
      }
      vavs := vavCache;
    }

    /** `generate_ilc_config` */
    method GenerateIlcConfig() returns (r: Result<IlcResult>)
      modifies this
      ensures vavCache == old(vavCache)
      ensures var c := IlcConfig(setup, old(State()));
        (r.Ok? <==> c.Ok?) && (r.Ok? ==> r.value == c.value.0 && State() == c.value.1)
    {
      var m := GetBuildingPowerMeter();
      if m.Err? {
        return IlcConfigCg(setup.base, Err(m.msg), Ok(""), unmapped);
      }
      var point := GetBuildingPowerPoint(m.value);
      if point.Err? {
        return Err(point.msg);
      }
      r := IlcConfigCg(setup.base, Ok(m.value), Ok(point.value), unmapped);
    }

    /** `generate_configs`, after the pairwise step: the ILC config, then
        the VAV loops of the base, each of which asks for the VAV rows. */
    method GenerateConfigs() returns (r: Result<IlcRun>)
      modifies this
      ensures var g := Generate(setup, old(State()), old(vavCache));
        (r.Ok? <==> g.Ok?) && (r.Ok? ==> r.value == g.value)
    {
      ghost var st0, cache0 := State(), vavCache;
      var ilc := GenerateIlcConfig();
      if ilc.Err? {
        return Err(ilc.msg);
      }
      FailedNotEmpty(setup, st0);
      if ilc.value.Failed? && ilc.value.error != map[] {
        return Ok(IlcRun(None, [], [], ilc.value.error, FirstFiles(setup.base), [], 1));
      }
      var vavs := GetVavsWithAhuref();
      var again := GetVavsWithAhuref();
      assert again == vavs == VavsOf(setup, cache0);
      var gen := new IlcGenerator<map<string, map<string, string>>>(setup.base, DbPointName(setup), topicMap, unmapped);
      r := gen.GenerateConfigs(ilc.value, vavs);
      topicMap, unmapped := gen.st, gen.unmapped;
    }
  }
}
