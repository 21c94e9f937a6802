/** The ILC generators' base class, in its two versions: `Cg`, the
    `config_generators` one, and `Src`, the `src` one. The base builds the
    power-meter part of `ilc.config` and one control and one criteria entry
    per VAV. Each back-end supplies the meter, the power point, the VAV list
    and `get_point_name`. Here the back-end's `get_point_name` is a function
    value over the back-end's own state. Python exceptions are `Err`s named
    after the exception. */
module Ilc {
  import opened Wrappers
  import opened Strs
  import opened Json
  import opened Names
  import opened Topics
  import opened ODicts
  import opened Tokens
  import opened Folds

  datatype Base = Cg | Src

  /** The role of the building power point in `point_meta_map`. */
  const PowerKey := "WholeBuildingPower"

  /** The tag of a whole-building power meter. */
  const MeterTag := "siteMeter"

  // ----- __init__ -----

  /** What `__init__` keeps: the location and topic prefix, the meta map
      (role to meta value, in file order), the configured meter name and
      meter id (the latter only in `Cg`; empty in `Src`), the device type
      (`vav` in `Src`), and the three templates. */
  datatype Setup = Setup(
    base: Base,
    campus: string,
    building: string,
    prefix: string,
    metaMap: ODict<string>,
    metaField: string,
    powerPointType: string,
    meterName: string,
    configuredMeterId: string,
    deviceType: string,
    ilcTemplate: map<string, Json>,
    controlTemplate: Json,
    criteriaTemplate: ODict<Json>)

  /** `d.update(e)` on dictionaries in insertion order. */
  function Update<V>(d: ODict<V>, e: ODict<V>): ODict<V>
    decreases |e|
  {
    if e == [] then d else Update(Put(d, e[0].0, e[0].1), e[1..])
  }

  /** The defaults of `ilc_template`, before `update(config_template["ilc_config"])`. */
  function IlcDefaults(campus: string, building: string, deviceType: string): map<string, Json> {
    map[
      "campus" := JStr(campus),
      "building" := JStr(building),
      "power_meter" := JObj(map["device_topic" := JStr(""), "point" := JStr("")]),
      "application_category" := JStr("Load Control"),
      "application_name" := JStr("Intelligent Load Control"),
      "clusters" := JArr([JObj(map[
        "device_control_config" := JStr("config://" + deviceType + "_control.config"),
        "device_criteria_config" := JStr("config://" + deviceType + "_criteria.config"),
        "pairwise_criteria_config" := JStr("config://" + deviceType + "_criteria_matrix.json"),
        "cluster_priority" := JReal(1.0)])])]
  }

  /** `__init__`, from the configuration's fields: the building and campus
      (derived from the site id when empty), the prefix, `point_meta_map`
      (which must hold `WholeBuildingPower`), `device_type` (required in
      `Cg`), and the three templates. The errors are the `IndexError` of a
      dotless site id, the `KeyError` of a missing power role and the
      `ValueError` of a missing device type, in that order. */
  function SetupOf(base: Base, siteId: string, building: string, campus: string,
                   metaMap: ODict<string>, metaField: string, meterName: string,
                   configuredMeterId: string, deviceType: string,
                   ilcConfig: map<string, Json>, controlConfig: Json,
                   criteriaConfig: ODict<Json>): (r: Result<Setup>)
    ensures r.Ok? <==>
      Location(siteId, building, campus).Ok? && Get(metaMap, PowerKey).Some? &&
      (base == Cg ==> deviceType != "")
    ensures r.Ok? ==> var (b, c) := Location(siteId, building, campus).value;
      r.value.prefix == IlcTopicPrefix(c, b) && r.value.building == b && r.value.campus == c &&
      r.value.powerPointType == Get(metaMap, PowerKey).value &&
      r.value.base == base && r.value.metaMap == metaMap &&
      r.value.configuredMeterId == (if base == Cg then configuredMeterId else "") &&
      r.value.deviceType == (if base == Cg then deviceType else "vav")
  {
    var loc :- Location(siteId, building, campus);
    var (b, c) := loc;
    match Get(metaMap, PowerKey)
    case None => Err("KeyError")
    case Some(ppt) =>
      if base == Cg && deviceType == "" then Err("ValueError: Missing device_type parameter under config_template")
      else
        var dt := if base == Cg then deviceType else "vav";
        Ok(Setup(base, c, b, IlcTopicPrefix(c, b), metaMap, metaField, ppt, meterName,
                 if base == Cg then configuredMeterId else "", dt,
                 IlcDefaults(c, b, dt) + ilcConfig, controlConfig,
                 Update([("device_topic", JStr(""))], criteriaConfig)))
  }

  /** `volttron_point_types_vav` of `Cg`: the roles other than
      `WholeBuildingPower`, in map order. */
  function VavTypes(d: ODict<string>): seq<string>
    decreases |d|
  {
    if d == [] then [] else (if d[0].0 != PowerKey then [d[0].0] else []) + VavTypes(d[1..])
  }

  /** `point_types_vav`: their meta values, in the same order. */
  function VavMetas(d: ODict<string>): seq<string>
    decreases |d|
  {
    if d == [] then [] else (if d[0].0 != PowerKey then [d[0].1] else []) + VavMetas(d[1..])
  }

  /** The role list keeps the map's order: filtering two halves and joining
      them is filtering the whole. */
  lemma {:induction false} VavTypesAppend(a: ODict<string>, b: ODict<string>)
    ensures VavTypes(a + b) == VavTypes(a) + VavTypes(b)
    decreases |a|
  {
    if a == [] {
      assert a + b == b;
    } else {
      assert (a + b)[0] == a[0];
      assert (a + b)[1..] == a[1..] + b;
      VavTypesAppend(a[1..], b);
      var h := if a[0].0 != PowerKey then [a[0].0] else [];
      assert VavTypes(a + b) == h + VavTypes(a[1..] + b);
      assert h + (VavTypes(a[1..]) + VavTypes(b)) == (h + VavTypes(a[1..])) + VavTypes(b);
    }
  }

  /** Every key other than `WholeBuildingPower` is a role, and every meta
      value of such a key is a VAV meta value. */
  lemma {:induction false} VavTypesMembers(a: ODict<string>)
    ensures forall x :: x in VavTypes(a) <==> x in Keys(a) && x != PowerKey
    ensures forall x :: x in VavMetas(a) <==> exists i :: 0 <= i < |a| && a[i].0 != PowerKey && a[i].1 == x
    decreases |a|
  {
    if a != [] {
      VavTypesMembers(a[1..]);
      forall x ensures x in VavMetas(a) <==> exists i :: 0 <= i < |a| && a[i].0 != PowerKey && a[i].1 == x {
        if x in VavMetas(a[1..]) {
          var i :| 0 <= i < |a[1..]| && a[1..][i].0 != PowerKey && a[1..][i].1 == x;
          assert a[i + 1] == a[1..][i];
        }
        if exists i :: 0 <= i < |a| && a[i].0 != PowerKey && a[i].1 == x {
          var i :| 0 <= i < |a| && a[i].0 != PowerKey && a[i].1 == x;
          if i > 0 {
            assert a[1..][i - 1] == a[i];
          }
        }
      }
    }
  }

  /** The roles a control entry needs: every role other than the power role
      in `Cg`, three fixed ones in `Src`. */
  function ControlTypes(s: Setup): seq<string> {
    if s.base == Cg then VavTypes(s.metaMap)
    else ["MinimumAirFlow", "ZoneAirFlowSetpoint", "ZoneCoolingTemperatureSetPoint"]
  }

  /** The roles a criteria entry needs, after `sort(key=len)`: the same
      roles in `Cg`, five fixed ones in `Src`. They are also its token list. */
  function CriteriaTypes(s: Setup): seq<string> {
    if s.base == Cg then SortByLen(VavTypes(s.metaMap))
    else SortByLen(["MinimumAirFlow", "MaxAirFlow", "ZoneCoolingTemperatureSetPoint", "ZoneTemperature", "ZoneAirFlow"])
  }

  // ----- JSON access -----

  /** `j[k]` on a decoded value: a `TypeError` when it is not a dictionary,
      a `KeyError` when the key is absent. */
  function Field(j: Json, k: string): (r: Result<Json>)
    ensures r.Ok? <==> j.JObj? && k in j.fields
    ensures r.Ok? ==> r.value == j.fields[k]
  {
    if !j.JObj? then Err("TypeError") else if k !in j.fields then Err("KeyError") else Ok(j.fields[k])
  }

  /** `j[k] = v` */
  function SetField(j: Json, k: string, v: Json): (r: Result<Json>)
    ensures r.Ok? <==> j.JObj?
    ensures r.Ok? ==> r.value.JObj? && r.value.fields == j.fields[k := v]
  {
    if !j.JObj? then Err("TypeError") else Ok(JObj(j.fields[k := v]))
  }

  // ----- generate_ilc_config -----

  /** What `generate_ilc_config` returns: nothing after writing the ILC
      config, or the error dictionary. */
  datatype IlcResult = Written(config: Json) | Failed(error: Table)

  function ErrorOnly(msg: string): Record {
    map["error" := JStr(msg)]
  }

  /** The message when no meter was found. */
  function NoMeterMsg(s: Setup): string {
    if s.configuredMeterId != "" then "Unable to locate building power meter using id '" + s.configuredMeterId + "' "
    else "Unable to locate building power meter using the tag '" + MeterTag + "' "
  }

  /** The message of the `ValueError` for a second meter: by the
      configured id, or by the meter tag. */
  function TwoMetersMsg(s: Setup): string {
    (if s.configuredMeterId != "" then "More than one equipment found with the id " + s.configuredMeterId
     else "More than one equipment found with the tag " + MeterTag)
    + ". Please add 'power_meter_id' parameter to configuration to uniquely identify whole building power meter"
  }

  /** The message of the record of a meta value with more than one point. */
  function AmbiguousMsg(s: Setup, pt: string): string {
    "More than one point have the same configured metadata: " + pt + " in the metadata field " + s.metaField
  }

  /** The ILC template with `power_meter.device_topic` and `power_meter.point`
      set; the meter's device name is the configured `building_power_meter`,
      or the meter id's last `.` piece. */
  function PowerMeterConfig(s: Setup, meter: string, point: string): Result<Json> {
    var name := if s.meterName != "" then s.meterName else NameFromId(meter);
    var pm :- Field(JObj(s.ilcTemplate), "power_meter");
    var pm1 :- SetField(pm, "device_topic", JStr(s.prefix + name));
    var pm2 :- SetField(pm1, "point", JStr(point));
    SetField(JObj(s.ilcTemplate), "power_meter", pm2)
  }

  /** Both versions once the meter id and the power point are known: the
      config when both are non-empty; otherwise an error under
      `building_power_meter` when there is no meter, and else, in `Cg`, the
      unmapped table when it is non-empty, and an error under the meter id. */
  function IlcOutcome(s: Setup, meter: string, point: string, t: Table): Result<IlcResult> {
    if meter != "" && point != "" then
      var c :- PowerMeterConfig(s, meter, point);
      Ok(Written(c))
    else if meter == "" then Ok(Failed(map["building_power_meter" := ErrorOnly(NoMeterMsg(s))]))
    else if s.base == Cg && t != map[] then Ok(Failed(t))
    else Ok(Failed(map[meter := ErrorOnly("Unable to locate building power point using the metadata " + s.powerPointType)]))
  }

  /** `Cg`'s `generate_ilc_config`: a `ValueError` from
      `get_building_power_meter` or `get_building_power_point` (an `Err`
      here) becomes an error dictionary. The point is only read when the
      meter lookup succeeded. */
  function IlcConfigCg(s: Setup, meter: Result<string>, point: Result<string>, t: Table): Result<IlcResult> {
    if meter.Err? then
      Ok(Failed(map["building_power_meter" := ErrorOnly("Unable to locate building power meter: Error: " + meter.msg)]))
    else if point.Err? then
      Ok(Failed(map[meter.value := ErrorOnly("Unable to locate building power point using the metadata "
                                              + s.powerPointType + ". " + point.msg)]))
    else IlcOutcome(s, meter.value, point.value, t)
  }

  /** The outcomes of `generate_ilc_config`. Nothing is returned (the config
      is written) exactly when the meter id and the point are both
      non-empty, and then only the power meter's two fields change. A
      failed meter lookup, or an empty meter id, gives an error under
      `building_power_meter`. A missing point gives, in `Cg`, the unmapped
      table when it is non-empty, and otherwise an error under the meter
      id. An error dictionary is never empty, so it always ends the run. */
  lemma IlcOutcomeSpec(s: Setup, meter: string, point: string, t: Table)
    ensures var r := IlcOutcome(s, meter, point, t);
      (r.Ok? && r.value.Written? <==>
        meter != "" && point != "" && "power_meter" in s.ilcTemplate && s.ilcTemplate["power_meter"].JObj?) &&
      (r.Ok? && r.value.Failed? ==> r.value.error != map[]) &&
      (meter == "" ==> r == Ok(Failed(map["building_power_meter" := ErrorOnly(NoMeterMsg(s))]))) &&
      (meter != "" && point == "" && s.base == Cg && t != map[] ==> r == Ok(Failed(t))) &&
      (meter != "" && point == "" && (s.base == Src || t == map[]) ==>
        r.Ok? && r.value.Failed? && r.value.error.Keys == {meter})
    ensures var r := IlcOutcome(s, meter, point, t);
      r.Ok? && r.value.Written? ==>
        var name := if s.meterName != "" then s.meterName else NameFromId(meter);
        var pm := s.ilcTemplate["power_meter"].fields;
        r.value.config == JObj(s.ilcTemplate["power_meter" :=
          JObj(pm["device_topic" := JStr(s.prefix + name)]["point" := JStr(point)])])
  {
    assert "building_power_meter" in map["building_power_meter" := ErrorOnly(NoMeterMsg(s))];
    assert meter in map[meter := ErrorOnly("Unable to locate building power point using the metadata " + s.powerPointType)];
  }

  /** In `Cg`, a failed meter lookup gives an error under
      `building_power_meter`, a failed point lookup one under the meter id. */
  lemma IlcConfigCgErrors(s: Setup, meter: Result<string>, point: Result<string>, t: Table)
    ensures meter.Err? ==> (IlcConfigCg(s, meter, point, t).Ok? &&
      IlcConfigCg(s, meter, point, t).value.Failed? &&
      IlcConfigCg(s, meter, point, t).value.error.Keys == {"building_power_meter"})
    ensures meter.Ok? && point.Err? ==> (IlcConfigCg(s, meter, point, t).Ok? &&
      IlcConfigCg(s, meter, point, t).value.Failed? &&
      IlcConfigCg(s, meter, point, t).value.error.Keys == {meter.value})
    ensures meter.Ok? && point.Ok? ==> IlcConfigCg(s, meter, point, t) == IlcOutcome(s, meter.value, point.value, t)
  {
  }

  // ----- the point lookups of one VAV -----

  /** Which of the two VAV generators is looking points up. */
  datatype Part = Control | Criteria

  /** One call of the back-end's `get_point_name(vav_id, "vav", role)`: the
      name, and the back-end state and unmapped table it leaves. */
  datatype Found<S> = Found(name: string, st: S, unmapped: Table)

  /** The back-end's `get_point_name`, from its state, the unmapped table,
      the VAV id and the role. */
  type PointName<!S> = (S, Table, string, string) -> Found<S>

  /** The state of one VAV's lookup loop: the back-end state, the unmapped
      table, `point_mapping` and `skip_vav`. */
  datatype PState<S> = PState(st: S, unmapped: Table, mapping: map<string, string>, skip: bool)

  /** The message of a VAV's missing-point record. `Src`'s control
      generator names `point_mapping[role]`, the empty list `__init__` put
      there; the others name the role's meta value. A role that is not a key
      of `point_meta_map` raises `KeyError` while the message is built. */
  function MissingMsg(s: Setup, part: Part, vpt: string): Result<string> {
    match Get(s.metaMap, vpt)
    case None => Err("KeyError")
    case Some(meta) =>
      if s.base == Src && part == Control then Ok("Unable to find point of type " + vpt + "/[]")
      else Ok("Unable to find point of type " + vpt + " using metadata field " + s.metaField
              + " and configured point mapping " + meta)
  }

  /** One role: a found name goes into the mapping; a missing one sets
      `skip_vav` and creates the VAV's record only when it has none. */
  function PointStep<S>(s: Setup, part: Part, f: PointName<S>, vav: string, p: PState<S>, vpt: string): Result<PState<S>> {
    var r := f(p.st, p.unmapped, vav, vpt);
    if r.name != "" then Ok(PState(r.st, r.unmapped, p.mapping[vpt := r.name], p.skip))
    else if HasRecord(r.unmapped, vav) then Ok(PState(r.st, r.unmapped, p.mapping, true))
    else
      var msg :- MissingMsg(s, part, vpt);
      Ok(PState(r.st, r.unmapped[vav := ErrorRecord("vav", msg)], p.mapping, true))
  }

  /** The lookup loop over the roles, in order. */
  function Points<S>(s: Setup, part: Part, f: PointName<S>, vav: string, p0: PState<S>, types: seq<string>): Result<PState<S>>
    decreases |types|
  {
    if types == [] then Ok(p0)
    else
      var p :- Points(s, part, f, vav, p0, types[..|types| - 1]);
      PointStep(s, part, f, vav, p, types[|types| - 1])
  }

  /** The back-end's names do not depend on its state or on the table; the
      two back-ends of this model have that shape once the ILC config is
      written. */
  ghost predicate NamesBy<S(!new)>(f: PointName<S>, names: (string, string) -> string) {
    forall st: S, t: Table, e: string, p: string :: f(st, t, e, p).name == names(e, p)
  }

  /** The back-end never removes or empties a record. */
  ghost predicate KeepsRecords<S(!new)>(f: PointName<S>) {
    forall st: S, t: Table, e: string, p: string, k: string ::
      HasRecord(t, k) ==> HasRecord(f(st, t, e, p).unmapped, k)
  }

  /** The back-end never touches the table. */
  ghost predicate ReadOnly<S(!new)>(f: PointName<S>) {
    forall st: S, t: Table, e: string, p: string :: f(st, t, e, p).unmapped == t
  }

  /** Every role has a name for the VAV. */
  ghost predicate Complete(names: (string, string) -> string, vav: string, types: seq<string>) {
    forall i :: 0 <= i < |types| ==> names(vav, types[i]) != ""
  }

  /** Every role is a key of `point_meta_map`. */
  predicate Known(s: Setup, types: seq<string>) {
    forall i :: 0 <= i < |types| ==> Get(s.metaMap, types[i]).Some?
  }

  /** One role, as a whole: the step fails only on the message's `KeyError`;
      it sets `skip_vav` exactly for a missing name, adds a found name to the
      mapping, and writes a record only for a missing name when the VAV has
      none. */
  lemma PointStepSpec<S>(s: Setup, part: Part, f: PointName<S>, vav: string, p: PState<S>, vpt: string)
    ensures var r := f(p.st, p.unmapped, vav, vpt);
      var q := PointStep(s, part, f, vav, p, vpt);
      (q.Ok? <==> r.name != "" || HasRecord(r.unmapped, vav) || Get(s.metaMap, vpt).Some?) &&
      (q.Ok? ==>
        q.value.st == r.st && q.value.skip == (p.skip || r.name == "") &&
        q.value.mapping == (if r.name != "" then p.mapping[vpt := r.name] else p.mapping) &&
        q.value.unmapped == (if r.name != "" || HasRecord(r.unmapped, vav) then r.unmapped
                             else r.unmapped[vav := ErrorRecord("vav", MissingMsg(s, part, vpt).value)]))
  {
  }

  /** Roles that are map keys never make the loop fail. */
  lemma {:induction false} PointsOk<S>(s: Setup, part: Part, f: PointName<S>, vav: string, p0: PState<S>, types: seq<string>)
    requires Known(s, types)
    ensures Points(s, part, f, vav, p0, types).Ok?
    decreases |types|
  {
    if types != [] {
      var n := |types| - 1;
      assert Known(s, types[..n]) by {
        forall i | 0 <= i < n ensures Get(s.metaMap, types[..n][i]).Some? {
          assert types[..n][i] == types[i];
        }
      }
      PointsOk(s, part, f, vav, p0, types[..n]);
      var q := Points(s, part, f, vav, p0, types[..n]).value;
      PointStepSpec(s, part, f, vav, q, types[n]);
    }
  }

  /** A lookup loop that fails on some first roles fails as a whole. */
  lemma {:induction false} PointsPrefixErr<S>(s: Setup, part: Part, f: PointName<S>, vav: string, p0: PState<S>,
                                              types: seq<string>, k: nat)
    requires k <= |types| && Points(s, part, f, vav, p0, types[..k]).Err?
    ensures Points(s, part, f, vav, p0, types).Err?
    decreases |types| - k
  {
    if k < |types| {
      assert types[..k + 1][..k] == types[..k];
      PointsPrefixErr(s, part, f, vav, p0, types, k + 1);
    } else {
      assert types[..k] == types;
    }
  }

  /** `skip_vav` ends set exactly when it was set or some role has no name. */
  lemma {:induction false} PointsSkip<S(!new)>(s: Setup, part: Part, f: PointName<S>, names: (string, string) -> string,
                                               vav: string, p0: PState<S>, types: seq<string>)
    requires NamesBy(f, names)
    ensures var r := Points(s, part, f, vav, p0, types);
      r.Ok? ==> (r.value.skip <==> p0.skip || !Complete(names, vav, types))
    decreases |types|
  {
    if types != [] {
      var n := |types| - 1;
      var init := types[..n];
      PointsSkip(s, part, f, names, vav, p0, init);
      var p := Points(s, part, f, vav, p0, init);
      if p.Ok? {
        var q := p.value;
        PointStepSpec(s, part, f, vav, q, types[n]);
        assert f(q.st, q.unmapped, vav, types[n]).name == names(vav, types[n]);
        CompleteSnoc(names, vav, types);
      }
    }
  }

  lemma CompleteSnoc(names: (string, string) -> string, vav: string, types: seq<string>)
    requires types != []
    ensures Complete(names, vav, types) <==>
      Complete(names, vav, types[..|types| - 1]) && names(vav, types[|types| - 1]) != ""
  {
    var n := |types| - 1;
    assert forall i :: 0 <= i < n ==> types[..n][i] == types[i];
  }

  /** The mapping ends holding exactly the roles with a name, each with its
      name, besides what it held before for other roles. */
  lemma {:induction false} PointsMapping<S(!new)>(s: Setup, part: Part, f: PointName<S>, names: (string, string) -> string,
                                                  vav: string, p0: PState<S>, types: seq<string>)
    requires NamesBy(f, names)
    ensures var r := Points(s, part, f, vav, p0, types);
      r.Ok? ==>
        (forall k :: k in r.value.mapping <==> k in p0.mapping || (k in types && names(vav, k) != "")) &&
        (forall k :: k in types && names(vav, k) != "" ==> r.value.mapping[k] == names(vav, k)) &&
        (forall k :: k in p0.mapping && k !in types ==> r.value.mapping[k] == p0.mapping[k])
    decreases |types|
  {
    if types != [] {
      var n := |types| - 1;
      var init := types[..n];
      PointsMapping(s, part, f, names, vav, p0, init);
      var p := Points(s, part, f, vav, p0, init);
      if p.Ok? {
        var q := p.value;
        PointStepSpec(s, part, f, vav, q, types[n]);
        assert f(q.st, q.unmapped, vav, types[n]).name == names(vav, types[n]);
        assert types == init + [types[n]];
        assert forall k :: k in types <==> k in init || k == types[n];
      }
    }
  }

  /** With a back-end that keeps records, every record survives the loop,
      and a VAV that ends up skipped has a record. */
  lemma {:induction false} PointsRecords<S(!new)>(s: Setup, part: Part, f: PointName<S>, vav: string, p0: PState<S>, types: seq<string>)
    requires KeepsRecords(f)
    ensures var r := Points(s, part, f, vav, p0, types);
      r.Ok? ==>
        (forall k :: HasRecord(p0.unmapped, k) ==> HasRecord(r.value.unmapped, k)) &&
        (r.value.skip ==> p0.skip || HasRecord(r.value.unmapped, vav))
    decreases |types|
  {
    if types != [] {
      var n := |types| - 1;
      PointsRecords(s, part, f, vav, p0, types[..n]);
      var p := Points(s, part, f, vav, p0, types[..n]);
      if p.Ok? {
        var q := p.value;
        PointStepSpec(s, part, f, vav, q, types[n]);
        var r := f(q.st, q.unmapped, vav, types[n]);
        forall k | HasRecord(q.unmapped, k) ensures HasRecord(r.unmapped, k) {
        }
        if !HasRecord(r.unmapped, vav) && r.name == "" && Get(s.metaMap, types[n]).Some? {
          assert "type" in ErrorRecord("vav", MissingMsg(s, part, types[n]).value);
        }
      }
    }
  }

  /** Create only if absent: with a back-end that never touches the table, a
      VAV that already has a record keeps it, and one without a record gets
      exactly one, for the first role that has no name; a VAV with every
      name leaves the table as it was. */
  lemma PointsFirstMissing<S(!new)>(s: Setup, part: Part, f: PointName<S>, names: (string, string) -> string,
                                    vav: string, p0: PState<S>, types: seq<string>)
    requires ReadOnly(f) && NamesBy(f, names) && Known(s, types)
    ensures Points(s, part, f, vav, p0, types).Ok?
    ensures HasRecord(p0.unmapped, vav) || Complete(names, vav, types) ==>
      Points(s, part, f, vav, p0, types).value.unmapped == p0.unmapped
    ensures forall i :: 0 <= i < |types| && !HasRecord(p0.unmapped, vav) && names(vav, types[i]) == "" &&
                        Complete(names, vav, types[..i]) ==>
      Points(s, part, f, vav, p0, types).value.unmapped ==
        p0.unmapped[vav := ErrorRecord("vav", MissingMsg(s, part, types[i]).value)]
  {
    PointsUntouched(s, part, f, names, vav, p0, types);
    forall i | 0 <= i < |types| && !HasRecord(p0.unmapped, vav) && names(vav, types[i]) == "" &&
               Complete(names, vav, types[..i])
      ensures Points(s, part, f, vav, p0, types).value.unmapped ==
        p0.unmapped[vav := ErrorRecord("vav", MissingMsg(s, part, types[i]).value)]
    {
      PointsFirstRecord(s, part, f, names, vav, p0, types, i);
    }
  }

  lemma KnownPrefix(s: Setup, types: seq<string>, n: nat)
    requires Known(s, types) && n <= |types|
    ensures Known(s, types[..n])
  {
    forall i | 0 <= i < n ensures Get(s.metaMap, types[..n][i]).Some? {
      assert types[..n][i] == types[i];
    }
  }

  /** A VAV with a record or with every name leaves the table alone. */
  lemma {:induction false} PointsUntouched<S(!new)>(s: Setup, part: Part, f: PointName<S>, names: (string, string) -> string,
                                                    vav: string, p0: PState<S>, types: seq<string>)
    requires ReadOnly(f) && NamesBy(f, names) && Known(s, types)
    ensures Points(s, part, f, vav, p0, types).Ok?
    ensures HasRecord(p0.unmapped, vav) || Complete(names, vav, types) ==>
      Points(s, part, f, vav, p0, types).value.unmapped == p0.unmapped
    decreases |types|
  {
    PointsOk(s, part, f, vav, p0, types);
    if types != [] {
      var n := |types| - 1;
      KnownPrefix(s, types, n);
      PointsUntouched(s, part, f, names, vav, p0, types[..n]);
      var q := Points(s, part, f, vav, p0, types[..n]).value;
      PointStepSpec(s, part, f, vav, q, types[n]);
      var r := f(q.st, q.unmapped, vav, types[n]);
      assert r.unmapped == q.unmapped && r.name == names(vav, types[n]);
      CompleteSnoc(names, vav, types);
    }
  }

  /** A VAV without a record gets the record of its first role without a
      name. */
  lemma {:induction false} PointsFirstRecord<S(!new)>(s: Setup, part: Part, f: PointName<S>, names: (string, string) -> string,
                                                      vav: string, p0: PState<S>, types: seq<string>, i: nat)
    requires ReadOnly(f) && NamesBy(f, names) && Known(s, types)
    requires i < |types| && !HasRecord(p0.unmapped, vav) && names(vav, types[i]) == ""
    requires Complete(names, vav, types[..i])
    ensures Points(s, part, f, vav, p0, types).Ok?
    ensures Points(s, part, f, vav, p0, types).value.unmapped ==
      p0.unmapped[vav := ErrorRecord("vav", MissingMsg(s, part, types[i]).value)]
    decreases |types|
  {
    PointsOk(s, part, f, vav, p0, types);
    var n := |types| - 1;
    var init := types[..n];
    KnownPrefix(s, types, n);
    if i < n {
      assert init[..i] == types[..i];
      assert init[i] == types[i];
      PointsFirstRecord(s, part, f, names, vav, p0, init, i);
    } else {
      assert types[..i] == init;
      PointsUntouched(s, part, f, names, vav, p0, init);
    }
    var q := Points(s, part, f, vav, p0, init).value;
    PointStepSpec(s, part, f, vav, q, types[n]);
    var r := f(q.st, q.unmapped, vav, types[n]);
    assert r.unmapped == q.unmapped && r.name == names(vav, types[n]);
    assert "type" in ErrorRecord("vav", MissingMsg(s, part, types[i]).value);
  }

  // ----- generate_control_config -----

  /** A VAV's key in both configs: `ahu/vav` with the short names, or the
      VAV's short name alone when it has no AHU. */
  function VavKey(vavId: string, ahuId: string): string {
    if ahuId != "" then NameFromId(ahuId) + "/" + NameFromId(vavId) else NameFromId(vavId)
  }

  /** `point_mapping[v]` for a decoded value: a list or dictionary is not
      hashable, and a key of another type is never in the mapping. */
  function MappedName(m: map<string, string>, v: Json): Result<string> {
    if v.JArr? || v.JObj? then Err("TypeError")
    else if v.JStr? && v.s in m then Ok(m[v.s])
    else Err("KeyError")
  }

  /** The strings of a list of string items. */
  function StrsOf(items: seq<Json>): (r: Option<seq<string>>)
    ensures r.Some? <==> forall i :: 0 <= i < |items| ==> items[i].JStr?
    ensures r.Some? ==> StrItems(r.value) == items
    decreases |items|
  {
    if items == [] then Some([])
    else if !items[0].JStr? then None
    else
      var rest := StrsOf(items[1..]);
      if rest.None? then None
      else
        assert items == [items[0]] + items[1..];
        Some([items[0].s] + rest.value)
  }

  /** `device_status_args.sort(key=len)`: the list's strings in the order
      the stable sort by length leaves them. */
  function SortedArgs(args: Json): Result<seq<string>> {
    if !args.JArr? then Err("AttributeError")
    else
      match StrsOf(args.items)
      case None => Err("TypeError")
      case Some(xs) => Ok(SortByLen(xs))
  }

  /** What `for condition in conditions` walks: a list's items, or a
      string's characters. */
  function ConditionItems(c: Json): Result<seq<Json>> {
    match c
    case JArr(items) => Ok(items)
    case JStr(str) => Ok(seq(|str|, i requires 0 <= i < |str| => JStr([str[i]])))
    case _ => Err("TypeError")
  }

  /** `[point_mapping[p] for p in points]` */
  function MapAll(points: seq<string>, m: map<string, string>): (r: seq<string>)
    requires AllMapped(points, m)
    ensures |r| == |points|
    ensures forall i :: 0 <= i < |points| ==> r[i] == m[points[i]]
  {
    seq(|points|, i requires 0 <= i < |points| => m[points[i]])
  }

  /** A control entry from the template copy (its `device_topic` already
      set) and the VAV's mapping: `curtail_settings.point` becomes the
      mapped name; the status arguments are sorted by length, every
      condition has the tokens replaced, `device_status_args` becomes the
      mapped names and `condition` becomes the LAST rewritten condition (the
      loop variable after the loop). With no condition that variable is
      unbound. */
  function ControlEntry(config: Json, m: map<string, string>): Result<Json> {
    var cs :- Field(config, "curtail_settings");
    var vp :- Field(cs, "point");
    var name :- MappedName(m, vp);
    var cs1 :- SetField(cs, "point", JStr(name));
    var c1 :- SetField(config, "curtail_settings", cs1);
    var ds :- Field(c1, "device_status");
    var cu :- Field(ds, "curtail");
    var cu1 :- CurtailEntry(cu, m);
    var ds1 :- SetField(ds, "curtail", cu1);
    SetField(c1, "device_status", ds1)
  }

  /** The `device_status.curtail` part of a control entry. */
  function CurtailEntry(cu: Json, m: map<string, string>): Result<Json> {
    var args :- Field(cu, "device_status_args");
    var tokens :- SortedArgs(args);
    var conds :- Field(cu, "condition");
    var items :- ConditionItems(conds);
    var done :- ReplaceInList(items, tokens, m);
    if !AllMapped(tokens, m) then Err("KeyError")
    else if done == [] then Err("UnboundLocalError")
    else
      var cu1 :- SetField(cu, "device_status_args", JArr(StrItems(MapAll(tokens, m))));
      SetField(cu1, "condition", done[|done| - 1])
  }

  /** A `device_status.curtail` of the documented shape: a list of string
      `device_status_args` and a non-empty list of string conditions. */
  predicate CurtailShaped(cu: Json) {
    cu.JObj? &&
    "device_status_args" in cu.fields && cu.fields["device_status_args"].JArr? &&
    StrsOf(cu.fields["device_status_args"].items).Some? &&
    "condition" in cu.fields && cu.fields["condition"].JArr? && cu.fields["condition"].items != [] &&
    StrsOf(cu.fields["condition"].items).Some?
  }

  /** A control template of the documented shape: `curtail_settings.point`
      is a string and `device_status.curtail` has the shape above. */
  predicate ControlShaped(config: Json) {
    config.JObj? && "curtail_settings" in config.fields && "device_status" in config.fields &&
    var cs := config.fields["curtail_settings"];
    var ds := config.fields["device_status"];
    cs.JObj? && "point" in cs.fields && cs.fields["point"].JStr? &&
    ds.JObj? && "curtail" in ds.fields && CurtailShaped(ds.fields["curtail"])
  }

  function CurtailPoint(config: Json): string
    requires ControlShaped(config)
  {
    config.fields["curtail_settings"].fields["point"].s
  }

  function Curtail(config: Json): Json
    requires ControlShaped(config)
  {
    config.fields["device_status"].fields["curtail"]
  }

  function StatusArgs(cu: Json): seq<string>
    requires CurtailShaped(cu)
  {
    StrsOf(cu.fields["device_status_args"].items).value
  }

  function LastCondition(cu: Json): string
    requires CurtailShaped(cu)
  {
    var c := StrsOf(cu.fields["condition"].items).value;
    c[|c| - 1]
  }

  /** A control entry changes only `curtail_settings` and `device_status`:
      every other key of the copy, `device_topic` among them, is kept. */
  lemma ControlEntryKeeps(config: Json, m: map<string, string>)
    ensures var r := ControlEntry(config, m);
      r.Ok? ==>
        config.JObj? && r.value.JObj? && r.value.fields.Keys == config.fields.Keys &&
        forall k :: k in config.fields && k != "curtail_settings" && k != "device_status" ==>
          r.value.fields[k] == config.fields[k]
  {
  }

  /** Whether every token has a name does not depend on their order. */
  lemma AllMappedPerm(a: seq<string>, b: seq<string>, m: map<string, string>)
    requires multiset(a) == multiset(b)
    ensures AllMapped(a, m) <==> AllMapped(b, m)
  {
    forall i | 0 <= i < |a| ensures a[i] in b {
      assert a[i] in multiset(a);
    }
    forall i | 0 <= i < |b| ensures b[i] in a {
      assert b[i] in multiset(b);
    }
  }

  /** The curtail part of the documented shape is built exactly when every
      status argument has a name. */
  lemma CurtailEntryOk(cu: Json, m: map<string, string>)
    requires CurtailShaped(cu)
    ensures CurtailEntry(cu, m).Ok? <==> AllMapped(StatusArgs(cu), m)
  {
    var args := StatusArgs(cu);
    var tokens := SortByLen(args);
    assert SortedArgs(cu.fields["device_status_args"]) == Ok(tokens);
    SortByLenSpec(args);
    AllMappedPerm(tokens, args, m);
    var conds := cu.fields["condition"].items;
    assert ConditionItems(cu.fields["condition"]) == Ok(conds);
    assert forall i :: 0 <= i < |conds| ==> conds[i].JStr?;
    ReplaceInListSpec(conds, tokens, m);
  }

  /** The loop variable after `for condition in conditions` over a
      non-empty list of strings: the last one, with every token replaced. */
  lemma LastReplaced(c: seq<string>, tokens: seq<string>, m: map<string, string>)
    requires c != [] && AllMapped(tokens, m)
    ensures ReplaceInList(StrItems(c), tokens, m).Ok?
    ensures var done := ReplaceInList(StrItems(c), tokens, m).value;
      done != [] && done[|done| - 1] == JStr(ApplyTokens(c[|c| - 1], tokens, m))
  {
    var conds := StrItems(c);
    ReplaceInListSpec(conds, tokens, m);
    assert conds[|conds| - 1] == JStr(c[|c| - 1]);
    if tokens == [] {
      ApplyTokensIdentity(c[|c| - 1], tokens, m);
    }
  }

  /** A built curtail part holds the mapped arguments in length order and
      the last condition with every argument replaced, shortest first. */
  lemma CurtailEntryValue(cu: Json, m: map<string, string>)
    requires CurtailShaped(cu)
    ensures var tokens := SortByLen(StatusArgs(cu));
      CurtailEntry(cu, m).Ok? ==>
        AllMapped(tokens, m) &&
        CurtailEntry(cu, m).value == JObj(cu.fields
          ["device_status_args" := JArr(StrItems(MapAll(tokens, m)))]
          ["condition" := JStr(ApplyTokens(LastCondition(cu), tokens, m))])
  {
    var tokens := SortByLen(StatusArgs(cu));
    assert SortedArgs(cu.fields["device_status_args"]) == Ok(tokens);
    var c := StrsOf(cu.fields["condition"].items).value;
    assert ConditionItems(cu.fields["condition"]) == Ok(StrItems(c));
    if AllMapped(tokens, m) {
      LastReplaced(c, tokens, m);
    }
  }

  /** On a template of the documented shape, the entry is built exactly when
      the curtail point and every status argument have a name; it then holds
      the mapped curtail point and the new curtail part. */
  lemma ControlEntrySpec(config: Json, m: map<string, string>)
    requires ControlShaped(config)
    ensures ControlEntry(config, m).Ok? <==> CurtailPoint(config) in m && AllMapped(StatusArgs(Curtail(config)), m)
    ensures ControlEntry(config, m).Ok? ==>
      var r := ControlEntry(config, m).value;
      var cs := config.fields["curtail_settings"];
      var ds := config.fields["device_status"];
      r.fields["curtail_settings"] == JObj(cs.fields["point" := JStr(m[CurtailPoint(config)])]) &&
      r.fields["device_status"] == JObj(ds.fields["curtail" := CurtailEntry(Curtail(config), m).value])
  {
    CurtailEntryOk(Curtail(config), m);
  }

  /** An entry of either config. */
  datatype Entry = ControlOut(control: Json) | CriteriaOut(criteria: ODict<Json>)

  /** The loop state over the VAVs: the back-end state, the unmapped table
      and the config built so far (VAV key to short name and entry). */
  datatype VState<S> = VState(st: S, unmapped: Table, out: ODict<(string, Entry)>)

  /** The control entry of a VAV: the template copy with its
      `device_topic`, completed by `ControlEntry`. */
  function ControlAt(s: Setup, key: string, m: map<string, string>): Result<Json> {
    var config :- SetField(s.controlTemplate, "device_topic", JStr(s.prefix + key));
    ControlEntry(config, m)
  }

  // ----- generate_criteria_config -----

  /** One operation of a criteria entry: `operation` has the tokens
      replaced; `operation_args` has `always` and `nc` rewritten when it is
      a dictionary, and is rewritten as a whole (a string, or every item of
      a list) otherwise. */
  function Criterion(v: Json, m: map<string, string>, tokens: seq<string>): Result<Json> {
    var op :- Field(v, "operation");
    var op1 :- ReplacePointNamesSpec(op, m, tokens);
    var v1 :- SetField(v, "operation", op1);
    var args :- Field(v1, "operation_args");
    if args.JObj? then
      var a :- Field(args, "always");
      var a1 :- ReplacePointNamesSpec(a, m, tokens);
      var args1 := JObj(args.fields["always" := a1]);
      var n :- Field(args1, "nc");
      var n1 :- ReplacePointNamesSpec(n, m, tokens);
      SetField(v1, "operation_args", JObj(args1.fields["nc" := n1]))
    else
      var args1 :- ReplacePointNamesSpec(args, m, tokens);
      SetField(v1, "operation_args", args1)
  }

  /** The keys a criteria entry leaves alone. */
  predicate Untouched(k: string) {
    k == "room_type" || k == "device_topic"
  }

  /** `for key, value_dict in curtail_config.items()`, in order. */
  function CriteriaEntry(entries: ODict<Json>, m: map<string, string>, tokens: seq<string>): Result<ODict<Json>>
    decreases |entries|
  {
    if entries == [] then Ok([])
    else
      var v1 :- if Untouched(entries[0].0) then Ok(entries[0].1) else Criterion(entries[0].1, m, tokens);
      var rest :- CriteriaEntry(entries[1..], m, tokens);
      Ok([(entries[0].0, v1)] + rest)
  }

  /** An operation changes only `operation` and `operation_args`; with a
      dictionary of arguments only its `always` and `nc` change, each
      rewritten on its own. */
  lemma CriterionSpec(v: Json, m: map<string, string>, tokens: seq<string>)
    ensures var r := Criterion(v, m, tokens);
      r.Ok? ==>
        v.JObj? && r.value.JObj? && "operation" in v.fields && "operation_args" in v.fields &&
        r.value.fields.Keys == v.fields.Keys &&
        (forall k :: k in v.fields && k != "operation" && k != "operation_args" ==> r.value.fields[k] == v.fields[k]) &&
        ReplacePointNamesSpec(v.fields["operation"], m, tokens) == Ok(r.value.fields["operation"])
    ensures var r := Criterion(v, m, tokens);
      r.Ok? && v.fields["operation_args"].JObj? ==>
        var a := v.fields["operation_args"].fields;
        var a1 := r.value.fields["operation_args"];
        a1.JObj? && "always" in a && "nc" in a && a1.fields.Keys == a.Keys &&
        (forall k :: k in a && k != "always" && k != "nc" ==> a1.fields[k] == a[k]) &&
        ReplacePointNamesSpec(a["always"], m, tokens) == Ok(a1.fields["always"]) &&
        ReplacePointNamesSpec(a["nc"], m, tokens) == Ok(a1.fields["nc"])
    ensures var r := Criterion(v, m, tokens);
      r.Ok? && !v.fields["operation_args"].JObj? ==>
        ReplacePointNamesSpec(v.fields["operation_args"], m, tokens) == Ok(r.value.fields["operation_args"])
  {
  }

  /** The criteria loop fails exactly when some entry other than
      `room_type` and `device_topic` fails. */
  lemma {:induction false} CriteriaEntryOk(entries: ODict<Json>, m: map<string, string>, tokens: seq<string>)
    ensures CriteriaEntry(entries, m, tokens).Ok? <==>
      forall i :: 0 <= i < |entries| && !Untouched(entries[i].0) ==> Criterion(entries[i].1, m, tokens).Ok?
    decreases |entries|
  {
    if entries != [] {
      CriteriaEntryOk(entries[1..], m, tokens);
      var r := CriteriaEntry(entries, m, tokens);
      if (forall i :: 0 <= i < |entries| && !Untouched(entries[i].0) ==> Criterion(entries[i].1, m, tokens).Ok?) {
        forall i | 0 <= i < |entries[1..]| && !Untouched(entries[1..][i].0)
          ensures Criterion(entries[1..][i].1, m, tokens).Ok? {
          assert entries[1..][i] == entries[i + 1];
        }
        assert !Untouched(entries[0].0) ==> Criterion(entries[0].1, m, tokens).Ok?;
      }
      if r.Ok? {
        forall i | 0 < i < |entries| && !Untouched(entries[i].0)
          ensures Criterion(entries[i].1, m, tokens).Ok? {
          assert entries[1..][i - 1] == entries[i];
        }
      }
    }
  }

  /** The criteria loop keeps the keys in order, leaves `room_type` and
      `device_topic` as they were, and puts every other entry through
      `Criterion`. */
  lemma {:induction false} CriteriaEntrySpec(entries: ODict<Json>, m: map<string, string>, tokens: seq<string>)
    ensures var r := CriteriaEntry(entries, m, tokens);
      r.Ok? ==>
        Keys(r.value) == Keys(entries) &&
        (forall k :: Untouched(k) ==> Get(r.value, k) == Get(entries, k)) &&
        (forall k :: Get(entries, k).Some? && !Untouched(k) ==>
           Get(r.value, k).Some? && Criterion(Get(entries, k).value, m, tokens) == Ok(Get(r.value, k).value))
    decreases |entries|
  {
    if entries != [] {
      CriteriaEntrySpec(entries[1..], m, tokens);
    }
  }

  /** The copy a criteria entry starts from: `{"device_topic": ""}` updated
      with the template, with `device_topic` then set. */
  function CriteriaStart(s: Setup, key: string): ODict<Json> {
    Put(Update([("device_topic", JStr(""))], s.criteriaTemplate), "device_topic", JStr(s.prefix + key))
  }

  /** The criteria entry of a VAV. */
  function CriteriaAt(s: Setup, key: string, m: map<string, string>): Result<ODict<Json>> {
    CriteriaEntry(CriteriaStart(s, key), m, CriteriaTypes(s))
  }

  // ----- the loop over the VAVs, shared by both generators -----

  /** The roles a generator looks up. */
  function Types(s: Setup, part: Part): seq<string> {
    match part
    case Control => ControlTypes(s)
    case Criteria => CriteriaTypes(s)
  }

  /** The entry builder of each generator, from the VAV key and its mapping. */
  function Build(s: Setup, part: Part): (string, map<string, string>) -> Result<Entry> {
    match part
    case Control => (key: string, m: map<string, string>) => (var e :- ControlAt(s, key, m); Ok(ControlOut(e)))
    case Criteria => (key: string, m: map<string, string>) => (var e :- CriteriaAt(s, key, m); Ok(CriteriaOut(e)))
  }

  /** One VAV: the control generator sets the copy's `device_topic`
      before any lookup (a template that is not an object fails there); then
      the lookups, and, unless the VAV is skipped, `config[vav_topic] =
      {vav: entry}`. */
  function VavStep<S>(s: Setup, part: Part, f: PointName<S>, v: VState<S>, vavId: string, ahuId: string): Result<VState<S>> {
    var key := VavKey(vavId, ahuId);
    if part == Control && !s.controlTemplate.JObj? then Err("TypeError")
    else
      var p :- Points(s, part, f, vavId, PState(v.st, v.unmapped, map[], false), Types(s, part));
      if p.skip then Ok(VState(p.st, p.unmapped, v.out))
      else
        var e :- Build(s, part)(key, p.mapping);
        Ok(VState(p.st, p.unmapped, Put(v.out, key, (NameFromId(vavId), e))))
  }

  /** `VavStep` as the step of the loop over `(vav_id, ahu_id)` pairs. */
  function StepOf<S>(s: Setup, part: Part, f: PointName<S>): (VState<S>, (string, string)) -> Result<VState<S>> {
    (v: VState<S>, x: (string, string)) => VavStep(s, part, f, v, x.0, x.1)
  }

  /** The loop over `(vav_id, ahu_id)` pairs, in order. */
  function Vavs<S>(s: Setup, part: Part, f: PointName<S>, v0: VState<S>, vavs: seq<(string, string)>): Result<VState<S>> {
    Fold(StepOf(s, part, f), v0, vavs)
  }

  // ----- what the two VAV loops promise -----

  /** The `device_topic` an entry carries, if any. */
  function EntryTopic(e: Entry): Option<Json> {
    match e
    case ControlOut(j) => if j.JObj? && "device_topic" in j.fields then Some(j.fields["device_topic"]) else None
    case CriteriaOut(d) => Get(d, "device_topic")
  }

  /** Every entry's `device_topic` is the prefix and its key. */
  ghost predicate TopicsMatch(s: Setup, out: ODict<(string, Entry)>) {
    forall key :: Get(out, key).Some? ==> EntryTopic(Get(out, key).value.1) == Some(JStr(s.prefix + key))
  }

  /** The mapping of a VAV whose every role has a name. */
  function NameMap(names: (string, string) -> string, vav: string, types: seq<string>): map<string, string> {
    map k | k in types :: names(vav, k)
  }

  /** A control entry keeps the `device_topic` its copy was given. */
  lemma ControlTopic(s: Setup, key: string, m: map<string, string>)
    ensures var r := ControlAt(s, key, m);
      r.Ok? ==> (r.value.JObj? && "device_topic" in r.value.fields &&
                 r.value.fields["device_topic"] == JStr(s.prefix + key))
  {
    var c := SetField(s.controlTemplate, "device_topic", JStr(s.prefix + key));
    if c.Ok? {
      ControlEntryKeeps(c.value, m);
    }
  }

  /** The criteria loop leaves the `device_topic` it was given alone. */
  lemma CriteriaTopic(s: Setup, key: string, m: map<string, string>)
    ensures var r := CriteriaAt(s, key, m);
      r.Ok? ==> Get(r.value, "device_topic") == Some(JStr(s.prefix + key))
  {
    PutGet(Update([("device_topic", JStr(""))], s.criteriaTemplate), "device_topic", JStr(s.prefix + key));
    CriteriaEntryTopic(CriteriaStart(s, key), m, CriteriaTypes(s), JStr(s.prefix + key));
  }

  /** The criteria loop keeps whatever `device_topic` its entries hold. */
  lemma CriteriaEntryTopic(entries: ODict<Json>, m: map<string, string>, tokens: seq<string>, v: Json)
    requires Get(entries, "device_topic") == Some(v)
    ensures var r := CriteriaEntry(entries, m, tokens); r.Ok? ==> Get(r.value, "device_topic") == Some(v)
  {
    CriteriaEntrySpec(entries, m, tokens);
    assert Untouched("device_topic");
  }

  /** A built entry carries `device_topic` = prefix + key. */
  lemma BuildTopic(s: Setup, part: Part, key: string, m: map<string, string>)
    ensures Build(s, part)(key, m).Ok? ==> EntryTopic(Build(s, part)(key, m).value) == Some(JStr(s.prefix + key))
  {
    if part == Control {
      ControlTopic(s, key, m);
    } else {
      CriteriaTopic(s, key, m);
    }
  }

  /** The lookups of one VAV, from an empty mapping: the VAV is skipped
      exactly when some role has no name, and otherwise the mapping is every
      role with its name. */
  lemma PointsComplete<S(!new)>(s: Setup, part: Part, f: PointName<S>, names: (string, string) -> string,
                                vav: string, st: S, t: Table, types: seq<string>)
    requires NamesBy(f, names)
    ensures var r := Points(s, part, f, vav, PState(st, t, map[], false), types);
      r.Ok? ==>
        (r.value.skip <==> !Complete(names, vav, types)) &&
        (!r.value.skip ==> r.value.mapping == NameMap(names, vav, types))
  {
    var p0 := PState(st, t, map[], false);
    PointsSkip(s, part, f, names, vav, p0, types);
    PointsMapping(s, part, f, names, vav, p0, types);
    var r := Points(s, part, f, vav, p0, types);
    if r.Ok? && !r.value.skip {
      forall k | k in types ensures names(vav, k) != "" {
        var i :| 0 <= i < |types| && types[i] == k;
      }
    }
  }

  /** One VAV: a VAV with every role named gets an entry under its key; any
      other VAV leaves the config as it was; no other key changes. */
  lemma VavStepKeys<S(!new)>(s: Setup, part: Part, f: PointName<S>, names: (string, string) -> string,
                             v: VState<S>, vavId: string, ahuId: string)
    requires NamesBy(f, names)
    ensures var r := VavStep(s, part, f, v, vavId, ahuId);
      var key := VavKey(vavId, ahuId);
      r.Ok? ==>
        (forall k :: k != key ==> Get(r.value.out, k) == Get(v.out, k)) &&
        (Complete(names, vavId, Types(s, part)) ==> Get(r.value.out, key).Some?) &&
        (!Complete(names, vavId, Types(s, part)) ==> r.value.out == v.out)
  {
    var key := VavKey(vavId, ahuId);
    PointsComplete(s, part, f, names, vavId, v.st, v.unmapped, Types(s, part));
    var r := VavStep(s, part, f, v, vavId, ahuId);
    if r.Ok? {
      var p := Points(s, part, f, vavId, PState(v.st, v.unmapped, map[], false), Types(s, part)).value;
      if !p.skip {
        var e := Build(s, part)(key, p.mapping).value;
        PutSpec(v.out, key, (NameFromId(vavId), e));
      }
    }
  }

  /** One VAV with every role named: under its key go its short name and
      the entry built from every role's name. */
  lemma VavStepEntry<S(!new)>(s: Setup, part: Part, f: PointName<S>, names: (string, string) -> string,
                              v: VState<S>, vavId: string, ahuId: string)
    requires NamesBy(f, names) && Complete(names, vavId, Types(s, part))
    ensures var r := VavStep(s, part, f, v, vavId, ahuId);
      var key := VavKey(vavId, ahuId);
      var b := Build(s, part)(key, NameMap(names, vavId, Types(s, part)));
      r.Ok? ==> b.Ok? && Get(r.value.out, key) == Some((NameFromId(vavId), b.value))
  {
    var key := VavKey(vavId, ahuId);
    PointsComplete(s, part, f, names, vavId, v.st, v.unmapped, Types(s, part));
    var r := VavStep(s, part, f, v, vavId, ahuId);
    if r.Ok? {
      var p := Points(s, part, f, vavId, PState(v.st, v.unmapped, map[], false), Types(s, part)).value;
      var e := Build(s, part)(key, p.mapping).value;
      PutSpec(v.out, key, (NameFromId(vavId), e));
    }
  }

  /** A VAV with all its roles named has an entry under its key. */
  lemma VavsHas<S(!new)>(s: Setup, part: Part, f: PointName<S>, names: (string, string) -> string,
                         v0: VState<S>, vavs: seq<(string, string)>, i: nat)
    requires NamesBy(f, names)
    requires i < |vavs| && Complete(names, vavs[i].0, Types(s, part))
    ensures var r := Vavs(s, part, f, v0, vavs);
      r.Ok? ==> Get(r.value.out, VavKey(vavs[i].0, vavs[i].1)).Some?
  {
    var step := StepOf(s, part, f);
    var q := (x: (string, string)) => Complete(names, x.0, Types(s, part));
    var r := (x: (string, string), a: VState<S>) => Get(a.out, VavKey(x.0, x.1)).Some?;
    var keep := (y: (string, string), x: (string, string)) => true;
    forall a: VState<S>, x: (string, string) | q(x) && step(a, x).Ok? ensures r(x, step(a, x).value) {
      VavStepKeys(s, part, f, names, a, x.0, x.1);
    }
    forall a: VState<S>, x: (string, string), y: (string, string) | r(y, a) && keep(y, x) && step(a, x).Ok? ensures r(y, step(a, x).value) {
      VavStepKeys(s, part, f, names, a, x.0, x.1);
    }
    FoldLast(step, q, r, keep, v0, vavs, i);
  }

  /** Every VAV with all its roles named has an entry under its key. */
  lemma VavsComplete<S(!new)>(s: Setup, part: Part, f: PointName<S>, names: (string, string) -> string,
                              v0: VState<S>, vavs: seq<(string, string)>)
    requires NamesBy(f, names)
    ensures var r := Vavs(s, part, f, v0, vavs);
      r.Ok? ==>
        forall i :: 0 <= i < |vavs| && Complete(names, vavs[i].0, Types(s, part)) ==>
          Get(r.value.out, VavKey(vavs[i].0, vavs[i].1)).Some?
  {
    forall i | 0 <= i < |vavs| && Complete(names, vavs[i].0, Types(s, part))
      ensures Vavs(s, part, f, v0, vavs).Ok? ==> Get(Vavs(s, part, f, v0, vavs).value.out, VavKey(vavs[i].0, vavs[i].1)).Some?
    {
      VavsHas(s, part, f, names, v0, vavs, i);
    }
  }

  /** Every key after the VAVs `ys` comes from one of them with all its
      roles named, or was there before. */
  ghost predicate KeysFrom<S>(s: Setup, part: Part, names: (string, string) -> string,
                              v0: VState<S>, a: VState<S>, ys: seq<(string, string)>) {
    forall key :: Get(a.out, key).Some? ==>
      Get(v0.out, key).Some? ||
      exists i :: 0 <= i < |ys| && VavKey(ys[i].0, ys[i].1) == key && Complete(names, ys[i].0, Types(s, part))
  }

  /** Every key comes from a VAV with all its roles named, or was there
      before. */
  lemma VavsKeys<S(!new)>(s: Setup, part: Part, f: PointName<S>, names: (string, string) -> string,
                          v0: VState<S>, vavs: seq<(string, string)>)
    requires NamesBy(f, names)
    ensures var r := Vavs(s, part, f, v0, vavs);
      r.Ok? ==> KeysFrom(s, part, names, v0, r.value, vavs)
  {
    var step := StepOf(s, part, f);
    var inv := (a: VState<S>, ys: seq<(string, string)>) => KeysFrom(s, part, names, v0, a, ys);
    forall a: VState<S>, ys: seq<(string, string)>, x: (string, string) | inv(a, ys) && step(a, x).Ok? ensures inv(step(a, x).value, ys + [x]) {
      VavStepKeys(s, part, f, names, a, x.0, x.1);
      var b := step(a, x).value;
      var zs := ys + [x];
      forall key | Get(b.out, key).Some? && !Get(v0.out, key).Some?
        ensures exists i :: 0 <= i < |zs| && VavKey(zs[i].0, zs[i].1) == key && Complete(names, zs[i].0, Types(s, part))
      {
        if key == VavKey(x.0, x.1) && Complete(names, x.0, Types(s, part)) {
          assert zs[|ys|] == x;
        } else {
          assert Get(a.out, key).Some?;
          var i: nat :| i < |ys| && VavKey(ys[i].0, ys[i].1) == key && Complete(names, ys[i].0, Types(s, part));
          assert zs[i] == ys[i];
        }
      }
    }
    FoldHistory(step, inv, v0, vavs);
  }

  /** The last VAV with a given key and all its roles named decides that
      key's entry: its short name and the entry built from its names. */
  lemma VavsLast<S(!new)>(s: Setup, part: Part, f: PointName<S>, names: (string, string) -> string,
                          v0: VState<S>, vavs: seq<(string, string)>, i: nat)
    requires NamesBy(f, names)
    requires i < |vavs| && Complete(names, vavs[i].0, Types(s, part))
    requires forall j :: i < j < |vavs| && VavKey(vavs[j].0, vavs[j].1) == VavKey(vavs[i].0, vavs[i].1) ==>
      !Complete(names, vavs[j].0, Types(s, part))
    ensures var r := Vavs(s, part, f, v0, vavs);
      var key := VavKey(vavs[i].0, vavs[i].1);
      var b := Build(s, part)(key, NameMap(names, vavs[i].0, Types(s, part)));
      r.Ok? ==> b.Ok? && Get(r.value.out, key) == Some((NameFromId(vavs[i].0), b.value))
  {
    var step := StepOf(s, part, f);
    var q := (x: (string, string)) => Complete(names, x.0, Types(s, part));
    var r := (x: (string, string), a: VState<S>) =>
      var b := Build(s, part)(VavKey(x.0, x.1), NameMap(names, x.0, Types(s, part)));
      b.Ok? && Get(a.out, VavKey(x.0, x.1)) == Some((NameFromId(x.0), b.value));
    var keep := (y: (string, string), x: (string, string)) =>
      VavKey(x.0, x.1) == VavKey(y.0, y.1) ==> !Complete(names, x.0, Types(s, part));
    forall a: VState<S>, x: (string, string) | q(x) && step(a, x).Ok? ensures r(x, step(a, x).value) {
      VavStepEntry(s, part, f, names, a, x.0, x.1);
    }
    forall a: VState<S>, x: (string, string), y: (string, string) | r(y, a) && keep(y, x) && step(a, x).Ok? ensures r(y, step(a, x).value) {
      VavStepKeys(s, part, f, names, a, x.0, x.1);
    }
    FoldLast(step, q, r, keep, v0, vavs, i);
  }

  /** Every entry's `device_topic` stays the prefix and its key. */
  lemma VavsTopics<S(!new)>(s: Setup, part: Part, f: PointName<S>, names: (string, string) -> string,
                            v0: VState<S>, vavs: seq<(string, string)>)
    requires NamesBy(f, names) && TopicsMatch(s, v0.out)
    ensures var r := Vavs(s, part, f, v0, vavs);
      r.Ok? ==> TopicsMatch(s, r.value.out)
  {
    var step := StepOf(s, part, f);
    var inv := (a: VState<S>, ys: seq<(string, string)>) => TopicsMatch(s, a.out);
    forall a: VState<S>, ys: seq<(string, string)>, x: (string, string) | inv(a, ys) && step(a, x).Ok? ensures inv(step(a, x).value, ys + [x]) {
      VavStepKeys(s, part, f, names, a, x.0, x.1);
      if Complete(names, x.0, Types(s, part)) {
        VavStepEntry(s, part, f, names, a, x.0, x.1);
        BuildTopic(s, part, VavKey(x.0, x.1), NameMap(names, x.0, Types(s, part)));
      }
    }
    FoldHistory(step, inv, v0, vavs);
  }

  /** One VAV, with a back-end that keeps records: every record survives,
      and a VAV missing a role ends with one. */
  lemma VavStepRecords<S(!new)>(s: Setup, part: Part, f: PointName<S>, names: (string, string) -> string,
                                v: VState<S>, vavId: string, ahuId: string)
    requires NamesBy(f, names) && KeepsRecords(f)
    ensures var r := VavStep(s, part, f, v, vavId, ahuId);
      r.Ok? ==>
        (forall k :: HasRecord(v.unmapped, k) ==> HasRecord(r.value.unmapped, k)) &&
        (!Complete(names, vavId, Types(s, part)) ==> HasRecord(r.value.unmapped, vavId))
  {
    var p0 := PState(v.st, v.unmapped, map[], false);
    PointsSkip(s, part, f, names, vavId, p0, Types(s, part));
    PointsRecords(s, part, f, vavId, p0, Types(s, part));
  }

  /** With a back-end that keeps records, the loop keeps every record. */
  lemma VavsKeep<S(!new)>(s: Setup, part: Part, f: PointName<S>, names: (string, string) -> string,
                          v0: VState<S>, vavs: seq<(string, string)>)
    requires NamesBy(f, names) && KeepsRecords(f)
    ensures var r := Vavs(s, part, f, v0, vavs);
      r.Ok? ==> forall k :: HasRecord(v0.unmapped, k) ==> HasRecord(r.value.unmapped, k)
  {
    var step := StepOf(s, part, f);
    var inv := (a: VState<S>, ys: seq<(string, string)>) =>
      forall k :: HasRecord(v0.unmapped, k) ==> HasRecord(a.unmapped, k);
    forall a: VState<S>, ys: seq<(string, string)>, x: (string, string) | inv(a, ys) && step(a, x).Ok? ensures inv(step(a, x).value, ys + [x]) {
      VavStepRecords(s, part, f, names, a, x.0, x.1);
    }
    FoldHistory(step, inv, v0, vavs);
  }

  /** With a back-end that keeps records, a VAV missing a role ends the loop
      with a record. */
  lemma VavsRecord<S(!new)>(s: Setup, part: Part, f: PointName<S>, names: (string, string) -> string,
                            v0: VState<S>, vavs: seq<(string, string)>, i: nat)
    requires NamesBy(f, names) && KeepsRecords(f)
    requires i < |vavs| && !Complete(names, vavs[i].0, Types(s, part))
    ensures var r := Vavs(s, part, f, v0, vavs);
      r.Ok? ==> HasRecord(r.value.unmapped, vavs[i].0)
  {
    var step := StepOf(s, part, f);
    var q := (x: (string, string)) => !Complete(names, x.0, Types(s, part));
    var r := (x: (string, string), a: VState<S>) => HasRecord(a.unmapped, x.0);
    var keep := (y: (string, string), x: (string, string)) => true;
    forall a: VState<S>, x: (string, string) | q(x) && step(a, x).Ok? ensures r(x, step(a, x).value) {
      VavStepRecords(s, part, f, names, a, x.0, x.1);
    }
    forall a: VState<S>, x: (string, string), y: (string, string) | r(y, a) && keep(y, x) && step(a, x).Ok? ensures r(y, step(a, x).value) {
      VavStepRecords(s, part, f, names, a, x.0, x.1);
    }
    FoldLast(step, q, r, keep, v0, vavs, i);
  }

  /** With a back-end that keeps records, every VAV missing a role ends the
      loop with a record. */
  lemma VavsRecords<S(!new)>(s: Setup, part: Part, f: PointName<S>, names: (string, string) -> string,
                             v0: VState<S>, vavs: seq<(string, string)>)
    requires NamesBy(f, names) && KeepsRecords(f)
    ensures var r := Vavs(s, part, f, v0, vavs);
      r.Ok? ==>
        forall i :: 0 <= i < |vavs| && !Complete(names, vavs[i].0, Types(s, part)) ==>
          HasRecord(r.value.unmapped, vavs[i].0)
  {
    forall i | 0 <= i < |vavs| && !Complete(names, vavs[i].0, Types(s, part))
      ensures Vavs(s, part, f, v0, vavs).Ok? ==> HasRecord(Vavs(s, part, f, v0, vavs).value.unmapped, vavs[i].0)
    {
      VavsRecord(s, part, f, names, v0, vavs, i);
    }
  }

  /** The control roles the template names are all control roles. */
  predicate Covered(s: Setup) {
    ControlShaped(s.controlTemplate) &&
    CurtailPoint(s.controlTemplate) in ControlTypes(s) &&
    forall a :: a in StatusArgs(Curtail(s.controlTemplate)) ==> a in ControlTypes(s)
  }

  /** With a template of the documented shape whose points are all control
      roles, and every control role a key of `point_meta_map`, one VAV of
      the control loop never fails. */
  lemma ControlStepOk<S(!new)>(s: Setup, f: PointName<S>, names: (string, string) -> string,
                               v: VState<S>, vavId: string, ahuId: string)
    requires NamesBy(f, names) && Known(s, ControlTypes(s)) && Covered(s)
    ensures VavStep(s, Control, f, v, vavId, ahuId).Ok?
  {
    var key := VavKey(vavId, ahuId);
    var t := s.controlTemplate;
    var config := SetField(t, "device_topic", JStr(s.prefix + key)).value;
    assert config.fields == t.fields["device_topic" := JStr(s.prefix + key)];
    assert ControlShaped(config);
    assert CurtailPoint(config) == CurtailPoint(t) && Curtail(config) == Curtail(t);
    PointsOk(s, Control, f, vavId, PState(v.st, v.unmapped, map[], false), ControlTypes(s));
    PointsComplete(s, Control, f, names, vavId, v.st, v.unmapped, ControlTypes(s));
    if Complete(names, vavId, ControlTypes(s)) {
      var m := NameMap(names, vavId, ControlTypes(s));
      var args := StatusArgs(Curtail(config));
      assert AllMapped(args, m) by {
        forall i | 0 <= i < |args| ensures args[i] in m {
          assert args[i] in args;
        }
      }
      ControlEntrySpec(config, m);
    }
  }

  lemma ControlsOk<S(!new)>(s: Setup, f: PointName<S>, names: (string, string) -> string,
                            v0: VState<S>, vavs: seq<(string, string)>)
    requires NamesBy(f, names) && Known(s, ControlTypes(s)) && Covered(s)
    ensures Vavs(s, Control, f, v0, vavs).Ok?
  {
    var step := StepOf(s, Control, f);
    forall a: VState<S>, x: (string, string) ensures step(a, x).Ok? {
      ControlStepOk(s, f, names, a, x.0, x.1);
    }
    FoldOk(step, v0, vavs);
  }

  // ----- generate_configs -----

  /** `{device_type}_criteria_matrix.json`, the pairwise criteria file `Cg`
      copies before anything else. */
  function PairwiseFile(s: Setup): string {
    s.deviceType + "_criteria_matrix.json"
  }

  /** The file of each VAV config. */
  function ConfigFile(s: Setup, part: Part): string {
    match part
    case Control => if s.base == Cg then s.deviceType + "_control.config" else "vav_control.config"
    case Criteria => if s.base == Cg then s.deviceType + "_criteria.config" else "criteria.config"
  }

  /** The files written before the ILC config: the pairwise file in `Cg`. */
  function FirstFiles(s: Setup): seq<string> {
    if s.base == Cg then [PairwiseFile(s)] else []
  }

  /** A VAV config is written only when it has an entry. */
  function IfAny(out: ODict<(string, Entry)>, name: string): seq<string> {
    if out != [] then [name] else []
  }

  /** What `generate_configs` leaves: the ILC config written, the control
      and criteria configs, the table written to `unmapped_device_details`
      (nothing is written for an empty one), the config files written in
      order, the `config-name`s listed in `config_metadata.json` (nothing
      is written for an empty list), and the exit status. */
  datatype IlcRun = IlcRun(
    ilc: Option<Json>,
    control: ODict<(string, Entry)>,
    criteria: ODict<(string, Entry)>,
    errors: Table,
    files: seq<string>,
    metadata: seq<string>,
    status: int)

  /** `generate_configs`, from what `generate_ilc_config` returned and the
      back-end state and unmapped table it left: a non-empty error
      dictionary is written and ends the run with status 1; otherwise the
      control loop and then the criteria loop run over the same VAVs, the
      second starting from the state the first left. */
  function Run<S>(s: Setup, ilc: IlcResult, f: PointName<S>, st: S, t: Table,
                  vavs: seq<(string, string)>): Result<IlcRun> {
    if ilc.Failed? && ilc.error != map[] then Ok(IlcRun(None, [], [], ilc.error, FirstFiles(s), [], 1))
    else
      var c :- Vavs(s, Control, f, VState(st, t, []), vavs);
      var d :- Vavs(s, Criteria, f, VState(c.st, c.unmapped, []), vavs);
      Ok(Finish(s, ilc, c, d))
  }

  /** The end of a run that got through both loops: the files written in
      order, the metadata names, and the table it ends with. */
  function Finish<S>(s: Setup, ilc: IlcResult, c: VState<S>, d: VState<S>): IlcRun {
    var files := FirstFiles(s) + (if ilc.Written? then ["ilc.config"] else [])
                 + IfAny(c.out, ConfigFile(s, Control)) + IfAny(d.out, ConfigFile(s, Criteria));
    IlcRun(if ilc.Written? then Some(ilc.config) else None, c.out, d.out, d.unmapped, files,
           if s.base == Cg then MetadataNames(files) else [], ExitStatus(d.unmapped))
  }

  /** The names `Cg` lists in `config_metadata.json`: the ILC config as
      `config`, the others under their file names. */
  function MetadataNames(files: seq<string>): seq<string>
    decreases |files|
  {
    if files == [] then []
    else [if files[0] == "ilc.config" then "config" else files[0]] + MetadataNames(files[1..])
  }

  /** One name per file written, in the same order. */
  lemma {:induction false} MetadataNamesSpec(files: seq<string>)
    ensures |MetadataNames(files)| == |files|
    ensures forall i :: 0 <= i < |files| ==>
      MetadataNames(files)[i] == if files[i] == "ilc.config" then "config" else files[i]
    decreases |files|
  {
    if files != [] {
      MetadataNamesSpec(files[1..]);
    }
  }

  /** A `Cg` run that gets past `generate_ilc_config` lists the pairwise
      file first, and the ILC config as `config` right after it when it was
      written. */
  lemma RunMetadata<S>(s: Setup, ilc: IlcResult, f: PointName<S>, st: S, t: Table, vavs: seq<(string, string)>)
    requires s.base == Cg
    ensures var r := Run(s, ilc, f, st, t, vavs);
      r.Ok? && !(ilc.Failed? && ilc.error != map[]) ==>
        |r.value.metadata| == |r.value.files| >= 1 && r.value.metadata[0] == PairwiseFile(s) &&
        (ilc.Written? ==> |r.value.metadata| >= 2 && r.value.metadata[1] == "config")
  {
    var r := Run(s, ilc, f, st, t, vavs);
    if r.Ok? && !(ilc.Failed? && ilc.error != map[]) {
      MetadataNamesSpec(r.value.files);
      assert r.value.files[0] == PairwiseFile(s);
      if ilc.Written? {
        assert r.value.files[1] == "ilc.config";
      }
      assert PairwiseFile(s) != "ilc.config" by {
        assert PairwiseFile(s)[|PairwiseFile(s)| - 1] == 'n';
      }
    }
  }

  /** A failed `generate_ilc_config` ends the run: status 1, its error
      dictionary written, no VAV config, and in `Cg` only the pairwise file
      written. */
  lemma FailedStops<S>(s: Setup, meter: Result<string>, point: Result<string>, t: Table, f: PointName<S>,
                       st: S, vavs: seq<(string, string)>)
    ensures var i := IlcConfigCg(s, meter, point, t);
      i.Ok? && i.value.Failed? ==>
        var r := Run(s, i.value, f, st, t, vavs);
        r.Ok? && r.value.status == 1 && r.value.ilc == None && r.value.errors == i.value.error &&
        r.value.control == [] && r.value.criteria == [] && r.value.files == FirstFiles(s) &&
        r.value.metadata == []
  {
    FailedNonEmpty(s, meter, point, t);
  }

  /** The error dictionary of `Cg`'s `generate_ilc_config` is never empty. */
  lemma FailedNonEmpty(s: Setup, meter: Result<string>, point: Result<string>, t: Table)
    ensures var i := IlcConfigCg(s, meter, point, t);
      i.Ok? && i.value.Failed? ==> i.value.error != map[]
  {
    if meter.Ok? && point.Ok? {
      IlcOutcomeSpec(s, meter.value, point.value, t);
    } else if meter.Err? {
      assert "building_power_meter" in
        map["building_power_meter" := ErrorOnly("Unable to locate building power meter: Error: " + meter.msg)];
    } else {
      assert meter.value in map[meter.value := ErrorOnly("Unable to locate building power point using the metadata "
                                                          + s.powerPointType + ". " + point.msg)];
    }
  }

  /** The run exits with 0 exactly when the table it ends with is empty. */
  lemma RunStatus<S>(s: Setup, ilc: IlcResult, f: PointName<S>, st: S, t: Table, vavs: seq<(string, string)>)
    ensures var r := Run(s, ilc, f, st, t, vavs);
      r.Ok? ==> (r.value.status == 0 <==> r.value.errors == map[]) && (r.value.status == 0 || r.value.status == 1)
  {
  }

  // ----- the `Src` version -----

  /** `Src`'s criteria roles, looked up and substituted shortest first. */
  lemma SrcCriteriaRoles(s: Setup)
    requires s.base == Src
    ensures CriteriaTypes(s) == ["MaxAirFlow", "ZoneAirFlow", "MinimumAirFlow", "ZoneTemperature", "ZoneCoolingTemperatureSetPoint"]
  {
    CriteriaTokenOrder();
  }

  /** `Src`'s `generate_ilc_config` takes the meter id its back-end set and
      the point `get_building_power_point` returned, and never reads the
      unmapped table: no meter id gives the meter-tag message, and a meter
      without a point an error under the meter id. */
  lemma SrcIlcConfig(s: Setup, meter: string, point: string, t: Table)
    requires s.base == Src && s.configuredMeterId == ""
    ensures IlcOutcome(s, meter, point, t) == IlcOutcome(s, meter, point, map[])
    ensures meter == "" ==> (IlcOutcome(s, meter, point, t) ==
      Ok(Failed(map["building_power_meter" := ErrorOnly("Unable to locate building power meter using the tag 'siteMeter' ")])))
    ensures meter != "" && point == "" ==> (IlcOutcome(s, meter, point, t) ==
      Ok(Failed(map[meter := ErrorOnly("Unable to locate building power point using the metadata " + s.powerPointType)])))
  {
    NoMeterTag(s);
  }

  /** Without a configured meter id, the missing-meter message names the
      meter tag. */
  lemma NoMeterTag(s: Setup)
    requires s.configuredMeterId == ""
    ensures NoMeterMsg(s) == "Unable to locate building power meter using the tag 'siteMeter' "
  {
  }

  /** A `Src` run writes no pairwise file and no metadata: after an error
      dictionary nothing else is written, and otherwise the files are the
      ILC config when it was written, then `vav_control.config` and
      `criteria.config`, each only when it has an entry. */
  lemma SrcRunFiles<S>(s: Setup, ilc: IlcResult, f: PointName<S>, st: S, t: Table, vavs: seq<(string, string)>)
    requires s.base == Src
    ensures var r := Run(s, ilc, f, st, t, vavs);
      r.Ok? ==>
        r.value.metadata == [] &&
        (ilc.Failed? && ilc.error != map[] ==> r.value.files == []) &&
        (!(ilc.Failed? && ilc.error != map[]) ==>
          r.value.files == (if ilc.Written? then ["ilc.config"] else [])
                           + IfAny(r.value.control, "vav_control.config") + IfAny(r.value.criteria, "criteria.config"))
  {
  }

  /** `Src`'s default ILC template points the cluster at
      `vav_criteria.config`, while its criteria generator writes
      `criteria.config`; in `Cg` the two agree. */
  lemma CriteriaFileName(s: Setup)
    requires s.deviceType != ""
    ensures var cluster := IlcDefaults(s.campus, s.building, s.deviceType)["clusters"].items[0];
      (cluster.fields["device_criteria_config"] == JStr("config://" + ConfigFile(s, Criteria)) <==> s.base == Cg)
  {
    var name := "config://" + s.deviceType + "_criteria.config";
    if s.base == Src {
      assert |name| == |"config://criteria.config"| + |s.deviceType| + 1;
    }
  }

  /** After a written ILC config, with a back-end whose names depend only on
      the VAV and the role and that keeps records: a VAV with every control
      role named has a control entry under its key, and a VAV missing one
      has a record and makes the run exit with 1; the same for the criteria
      roles and the criteria config. */
  lemma RunCovers<S(!new)>(s: Setup, ilc: IlcResult, f: PointName<S>, names: (string, string) -> string,
                          st: S, t: Table, vavs: seq<(string, string)>, i: nat)
    requires NamesBy(f, names) && KeepsRecords(f) && ilc.Written? && i < |vavs|
    ensures var r := Run(s, ilc, f, st, t, vavs); var key := VavKey(vavs[i].0, vavs[i].1);
      r.Ok? ==>
        (Complete(names, vavs[i].0, ControlTypes(s)) ==> Get(r.value.control, key).Some?) &&
        (Complete(names, vavs[i].0, CriteriaTypes(s)) ==> Get(r.value.criteria, key).Some?) &&
        (!Complete(names, vavs[i].0, ControlTypes(s)) || !Complete(names, vavs[i].0, CriteriaTypes(s)) ==>
          HasRecord(r.value.errors, vavs[i].0) && r.value.status == 1)
  {
    var v0 := VState(st, t, []);
    var c := Vavs(s, Control, f, v0, vavs);
    if c.Ok? {
      var v1 := VState(c.value.st, c.value.unmapped, []);
      var d := Vavs(s, Criteria, f, v1, vavs);
      if Complete(names, vavs[i].0, ControlTypes(s)) {
        VavsHas(s, Control, f, names, v0, vavs, i);
      } else {
        VavsRecord(s, Control, f, names, v0, vavs, i);
        VavsKeep(s, Criteria, f, names, v1, vavs);
      }
      if Complete(names, vavs[i].0, CriteriaTypes(s)) {
        VavsHas(s, Criteria, f, names, v1, vavs, i);
      } else {
        VavsRecord(s, Criteria, f, names, v1, vavs, i);
      }
    }
  }

  /** Every entry of both configs carries `device_topic` = prefix + its key. */
  lemma RunTopics<S(!new)>(s: Setup, ilc: IlcResult, f: PointName<S>, names: (string, string) -> string,
                          st: S, t: Table, vavs: seq<(string, string)>)
    requires NamesBy(f, names)
    ensures var r := Run(s, ilc, f, st, t, vavs);
      r.Ok? ==> TopicsMatch(s, r.value.control) && TopicsMatch(s, r.value.criteria)
  {
    var e: ODict<(string, Entry)> := [];
    assert TopicsMatch(s, e);
    var v0 := VState(st, t, e);
    VavsTopics(s, Control, f, names, v0, vavs);
    var c := Vavs(s, Control, f, v0, vavs);
    if c.Ok? {
      VavsTopics(s, Criteria, f, names, VState(c.value.st, c.value.unmapped, e), vavs);
    }
  }
}
