/** What the airside RCx generators share: the point keys of an AHU and of
    its VAVs, and the shape of the config they write for one AHU, a copy of
    the template whose `device.unit` names the AHU and its VAVs and whose
    `arguments.point_mapping` holds the point names found. */
module Rcx {
  import opened Wrappers
  import opened Json
  import opened Names
  import opened Collapse
  import opened Drivers

  /** `volttron_point_types_ahu`, `ahu_point_keys`, `ahu_points` */
  const AhuKeys: seq<string> := ["fan_status", "duct_stcpr", "duct_stcpr_stpt", "sa_temp", "sat_stpt", "fan_speedcmd"]

  /** `volttron_point_types_vav`, `vav_point_keys`, `vav_points` */
  const VavKeys: seq<string> := ["zone_reheat", "zone_damper"]

  /** Every key `__init__` looks up in `point_meta_map`. */
  predicate MetaMapComplete(metaMap: map<string, string>) {
    (forall i :: 0 <= i < |AhuKeys| ==> AhuKeys[i] in metaMap) &&
    (forall i :: 0 <= i < |VavKeys| ==> VavKeys[i] in metaMap)
  }

  /** The meta values of some point keys, in key order (`ahu_point_types`,
      `vav_point_types`). */
  function TypesOf(metaMap: map<string, string>, keys: seq<string>): (ts: seq<string>)
    requires forall i :: 0 <= i < |keys| ==> keys[i] in metaMap
    ensures |ts| == |keys| && forall i :: 0 <= i < |keys| ==> ts[i] == metaMap[keys[i]]
  {
    seq(|keys|, i requires 0 <= i < |keys| => metaMap[keys[i]])
  }

  /** A template the configs can be written into: a `device` object and an
      `arguments.point_mapping` object. */
  predicate RcxTemplate(t: Json) {
    t.JObj? &&
    "device" in t.fields && t.fields["device"].JObj? &&
    "arguments" in t.fields && t.fields["arguments"].JObj? &&
    "point_mapping" in t.fields["arguments"].fields && t.fields["arguments"].fields["point_mapping"].JObj?
  }

  /** `config_template["device"] = {"campus": ..., "building": ..., "unit": {}}` */
  function InitTemplate(t: Json, campus: string, building: string): (r: Json)
    requires t.JObj?
    ensures r.JObj? && r.fields.Keys == t.fields.Keys + {"device"}
    ensures forall k :: k in t.fields && k != "device" ==> r.fields[k] == t.fields[k]
    ensures r.fields["device"] == JObj(map["campus" := JStr(campus), "building" := JStr(building), "unit" := JObj(map[])])
  {
    JObj(t.fields["device" := JObj(map["campus" := JStr(campus), "building" := JStr(building), "unit" := JObj(map[])])])
  }

  /** The `KeyError` of a template without `arguments.point_mapping`. */
  const TemplateErrorMsg := "KeyError: 'point_mapping'"

  function PointMappingOf(c: Json): map<string, Json> {
    if RcxTemplate(c) then c.fields["arguments"].fields["point_mapping"].fields else map[]
  }

  /** `point_mapping[key]` of a config, `null` when absent. */
  function Mapped(c: Json, key: string): Json {
    var pm := PointMappingOf(c);
    if key in pm then pm[key] else JNull
  }

  function UnitOf(c: Json): Json {
    if RcxTemplate(c) && "unit" in c.fields["device"].fields then c.fields["device"].fields["unit"] else JNull
  }

  /** The config of one AHU: a deep copy of the template with
      `device.unit = {ahu: {"subdevices": subs}}` and `mapping` written
      into `arguments.point_mapping`. */
  function Assemble(t: Json, ahu: string, subs: seq<string>, mapping: map<string, Json>): Json
    requires RcxTemplate(t)
  {
    var dev := t.fields["device"].fields;
    var args := t.fields["arguments"].fields;
    var pm := args["point_mapping"].fields;
    JObj(t.fields["device" := JObj(dev["unit" := JObj(map[ahu := JObj(map["subdevices" := JArr(StrItems(subs))])])])]
                 ["arguments" := JObj(args["point_mapping" := JObj(pm + mapping)])])
  }

  /** Only the unit and the written point names differ from the template:
      every other field, every other device field and every other
      `arguments` field is kept, and every point name not written keeps the
      template's value. */
  lemma AssembleSpec(t: Json, ahu: string, subs: seq<string>, mapping: map<string, Json>)
    requires RcxTemplate(t)
    ensures var c := Assemble(t, ahu, subs, mapping);
      RcxTemplate(c) && c.fields.Keys == t.fields.Keys &&
      (forall k :: k in t.fields && k != "device" && k != "arguments" ==> c.fields[k] == t.fields[k]) &&
      (forall k :: k in t.fields["device"].fields && k != "unit" ==> c.fields["device"].fields[k] == t.fields["device"].fields[k]) &&
      (forall k :: k in t.fields["arguments"].fields && k != "point_mapping" ==>
        c.fields["arguments"].fields[k] == t.fields["arguments"].fields[k]) &&
      UnitOf(c) == JObj(map[ahu := JObj(map["subdevices" := JArr(StrItems(subs))])]) &&
      PointMappingOf(c).Keys == PointMappingOf(t).Keys + mapping.Keys &&
      (forall k :: k in mapping ==> Mapped(c, k) == mapping[k]) &&
      (forall k :: k !in mapping ==> Mapped(c, k) == Mapped(t, k))
  {
  }

  /** The short names of the VAVs, in order: the `subdevices` list. */
  function SubDevices(vavs: seq<string>): (subs: seq<string>)
    ensures |subs| == |vavs| && forall i :: 0 <= i < |vavs| ==> subs[i] == NameFromId(vavs[i])
  {
    seq(|vavs|, i requires 0 <= i < |vavs| => NameFromId(vavs[i]))
  }

  lemma SubDevicesStep(vavs: seq<string>, i: nat)
    requires i < |vavs|
    ensures SubDevices(vavs[..i + 1]) == SubDevices(vavs[..i]) + [NameFromId(vavs[i])]
  {
  }

  /** The AHU's point names under their keys. */
  function AhuMapping(names: seq<string>): (m: map<string, Json>)
    requires |names| == |AhuKeys|
    ensures forall k :: k in m <==> k in AhuKeys
    ensures forall i :: 0 <= i < |AhuKeys| ==> m[AhuKeys[i]] == JStr(names[i])
  {
    map i | 0 <= i < |AhuKeys| :: AhuKeys[i] := JStr(names[i])
  }

  /** The AHU's names with the collapsed VAV values added. */
  function VavMapping(m: map<string, Json>, reheat: Json, damper: Json): map<string, Json> {
    m["zone_reheat" := reheat]["zone_damper" := damper]
  }

  /** The set of names gathered for a VAV key (empty when none was). */
  function SetOf(sets: map<string, set<string>>, key: string): set<string> {
    if key in sets then sets[key] else {}
  }

  /** `point_mapping[key].add(name)` */
  function AddTo(sets: map<string, set<string>>, key: string, name: string): (r: map<string, set<string>>)
    ensures SetOf(r, key) == SetOf(sets, key) + {name}
    ensures forall k :: k != key ==> SetOf(r, k) == SetOf(sets, k)
  {
    sets[key := SetOf(sets, key) + {name}]
  }

  /** A config realises a plan: it is the template with the unit, the AHU's
      point names, and for each VAV key some value collapsed from its set
      (the order of a collapsed list is left open). */
  predicate Realises(c: Json, t: Json, ahu: string, vavs: seq<string>, names: seq<string>, sets: map<string, set<string>>)
    requires RcxTemplate(t) && |names| == |AhuKeys|
  {
    c == Assemble(t, ahu, SubDevices(vavs),
                  VavMapping(AhuMapping(names), Mapped(c, "zone_reheat"), Mapped(c, "zone_damper"))) &&
    CollapsedFrom(Mapped(c, "zone_reheat"), SetOf(sets, "zone_reheat")) &&
    CollapsedFrom(Mapped(c, "zone_damper"), SetOf(sets, "zone_damper"))
  }

  /** What a realised config holds: the keys of the AHU with their names, the
      VAV short names in order, each VAV key collapsed from its set, and
      every other point of the template unchanged. */
  lemma RealisesSpec(c: Json, t: Json, ahu: string, vavs: seq<string>, names: seq<string>, sets: map<string, set<string>>)
    requires RcxTemplate(t) && |names| == |AhuKeys|
    requires Realises(c, t, ahu, vavs, names, sets)
    ensures forall i :: 0 <= i < |AhuKeys| ==> Mapped(c, AhuKeys[i]) == JStr(names[i])
    ensures UnitOf(c) == JObj(map[ahu := JObj(map["subdevices" := JArr(StrItems(SubDevices(vavs)))])])
    ensures forall k :: k !in AhuKeys && k !in VavKeys ==> Mapped(c, k) == Mapped(t, k)
    ensures forall i :: 0 <= i < |VavKeys| ==> CollapsedFrom(Mapped(c, VavKeys[i]), SetOf(sets, VavKeys[i]))
  {
    var m := VavMapping(AhuMapping(names), Mapped(c, "zone_reheat"), Mapped(c, "zone_damper"));
    AssembleSpec(t, ahu, SubDevices(vavs), m);
    forall i | 0 <= i < |AhuKeys|
      ensures Mapped(c, AhuKeys[i]) == JStr(names[i])
    {
      AhuKeyNotVav(i);
      assert AhuMapping(names)[AhuKeys[i]] == JStr(names[i]);
      assert AhuKeys[i] in m && m[AhuKeys[i]] == JStr(names[i]);
    }
    forall k | k !in AhuKeys && k !in VavKeys
      ensures Mapped(c, k) == Mapped(t, k)
    {
      assert k != "zone_reheat" && k != "zone_damper" by {
        assert VavKeys[0] == "zone_reheat" && VavKeys[1] == "zone_damper";
      }
      assert k !in AhuMapping(names).Keys;
    }
    forall i | 0 <= i < |VavKeys|
      ensures CollapsedFrom(Mapped(c, VavKeys[i]), SetOf(sets, VavKeys[i]))
    {
      assert VavKeys[i] == if i == 0 then "zone_reheat" else "zone_damper";
    }
  }

  /** No AHU key is a VAV key. */
  lemma AhuKeyNotVav(i: nat)
    requires i < |AhuKeys|
    ensures AhuKeys[i] != "zone_reheat" && AhuKeys[i] != "zone_damper"
  {
    assert AhuKeys[i][0] != 'z';
  }

  /** The collapsed values of the two VAV keys make a realised config. */
  lemma RealisesIntro(t: Json, ahu: string, vavs: seq<string>, names: seq<string>, sets: map<string, set<string>>,
                      reheat: Json, damper: Json)
    requires RcxTemplate(t) && |names| == |AhuKeys|
    requires CollapsedFrom(reheat, SetOf(sets, "zone_reheat")) && CollapsedFrom(damper, SetOf(sets, "zone_damper"))
    ensures Realises(Assemble(t, ahu, SubDevices(vavs), VavMapping(AhuMapping(names), reheat, damper)),
                     t, ahu, vavs, names, sets)
  {
    var m := VavMapping(AhuMapping(names), reheat, damper);
    AssembleSpec(t, ahu, SubDevices(vavs), m);
  }

  /** The key of an AHU in `config_metadata`. */
  function MetadataKey(ahu: string): string {
    "airsidercx-" + ahu
  }

  /** `equip_id_point_map` style lookups: the entry of an equipment, and the
      value at an equipment and meta value. */
  function EntryOf(m: map<string, map<string, string>>, e: string): map<string, string> {
    if e in m then m[e] else map[]
  }

  function At(m: map<string, map<string, string>>, e: string, pt: string): Option<string> {
    if e in m && pt in m[e] then Some(m[e][pt]) else None
  }

  /** `equip_id_point_map[e].get(pt, "")` */
  function NameIn(names: map<string, string>, pt: string): string {
    if pt in names then names[pt] else ""
  }

  /** The names of the six AHU points of an equipment. */
  function AhuNames(metaMap: map<string, string>, names: map<string, string>): (r: seq<string>)
    requires MetaMapComplete(metaMap)
    ensures |r| == |AhuKeys| && forall i :: 0 <= i < |AhuKeys| ==> r[i] == NameIn(names, metaMap[AhuKeys[i]])
  {
    seq(|AhuKeys|, i requires 0 <= i < |AhuKeys| => NameIn(names, metaMap[AhuKeys[i]]))
  }

  /** `if point_name: point_mapping[key].add(point_name)` */
  function AddNamed(sets: map<string, set<string>>, key: string, name: string): map<string, set<string>> {
    if name != "" then AddTo(sets, key, name) else sets
  }

  /** The VAV loop of `generate_ahu_configs`: the names of each VAV's two
      roles (meta values `rt` and `dt`) gathered per role, up to the first
      VAV the point map does not hold (a `KeyError`). */
  function VavSets(rt: string, dt: string, pm: map<string, map<string, string>>, vavs: seq<string>): Result<map<string, set<string>>>
    decreases |vavs|
  {
    if vavs == [] then Ok(map[])
    else
      var n := |vavs| - 1;
      var p :- VavSets(rt, dt, pm, vavs[..n]);
      var v := vavs[n];
      if v !in pm then Err(KeyErrorMsg(v))
      else Ok(AddNamed(AddNamed(p, "zone_reheat", NameIn(pm[v], rt)), "zone_damper", NameIn(pm[v], dt)))
  }

  /** A role's set holds exactly the non-empty names of the role's meta
      value on the VAVs. */
  ghost predicate RoleSet(pm: map<string, map<string, string>>, vavs: seq<string>, pt: string, xs: set<string>) {
    forall x :: x in xs <==> x != "" && exists i :: 0 <= i < |vavs| && vavs[i] in pm && x == NameIn(pm[vavs[i]], pt)
  }

  ghost predicate RoleNames(rt: string, dt: string, pm: map<string, map<string, string>>, vavs: seq<string>, sets: map<string, set<string>>) {
    RoleSet(pm, vavs, rt, SetOf(sets, "zone_reheat")) &&
    RoleSet(pm, vavs, dt, SetOf(sets, "zone_damper"))
  }

  /** The loop fails exactly when some VAV is not in the point map. */
  lemma {:induction false} VavSetsOk(rt: string, dt: string, pm: map<string, map<string, string>>, vavs: seq<string>)
    ensures VavSets(rt, dt, pm, vavs).Ok? <==> forall i :: 0 <= i < |vavs| ==> vavs[i] in pm
    decreases |vavs|
  {
    if vavs != [] {
      var n := |vavs| - 1;
      VavSetsOk(rt, dt, pm, vavs[..n]);
      assert forall i :: 0 <= i < n ==> vavs[..n][i] == vavs[i];
    }
  }

  /** The set of one role (`zone_reheat` or `zone_damper`). */
  lemma {:induction false} VavSetsRole(rt: string, dt: string, pm: map<string, map<string, string>>, vavs: seq<string>, key: string)
    requires (key == "zone_reheat" || key == "zone_damper") && VavSets(rt, dt, pm, vavs).Ok?
    ensures RoleSet(pm, vavs, if key == "zone_reheat" then rt else dt, SetOf(VavSets(rt, dt, pm, vavs).value, key))
    decreases |vavs|
  {
    var pt := if key == "zone_reheat" then rt else dt;
    if vavs == [] {
      assert SetOf(map[], key) == {};
    } else {
      var n := |vavs| - 1;
      var p := VavSets(rt, dt, pm, vavs[..n]);
      var v := vavs[n];
      assert p.Ok? && v in pm;
      VavSetsRole(rt, dt, pm, vavs[..n], key);
      var a, b := NameIn(pm[v], rt), NameIn(pm[v], dt);
      assert VavSets(rt, dt, pm, vavs) == Ok(AddNamed(AddNamed(p.value, "zone_reheat", a), "zone_damper", b));
      AddNamedTwice(p.value, a, b, key);
      RoleSetSnoc(pm, vavs, pt, SetOf(p.value, key));
    }
  }

  lemma AddNamedTwice(sets: map<string, set<string>>, a: string, b: string, key: string)
    requires key == "zone_reheat" || key == "zone_damper"
    ensures var name := if key == "zone_reheat" then a else b;
      SetOf(AddNamed(AddNamed(sets, "zone_reheat", a), "zone_damper", b), key) ==
      SetOf(sets, key) + (if name != "" then {name} else {})
  {
  }

  /** One more VAV adds its non-empty name to the role's set. */
  lemma RoleSetSnoc(pm: map<string, map<string, string>>, vavs: seq<string>, pt: string, xs: set<string>)
    requires vavs != [] && vavs[|vavs| - 1] in pm && RoleSet(pm, vavs[..|vavs| - 1], pt, xs)
    ensures var name := NameIn(pm[vavs[|vavs| - 1]], pt);
      RoleSet(pm, vavs, pt, xs + (if name != "" then {name} else {}))
  {
    var n := |vavs| - 1;
    var name := NameIn(pm[vavs[n]], pt);
    var ys := xs + (if name != "" then {name} else {});
    forall x
      ensures x in ys <==>
        x != "" && exists i :: 0 <= i < |vavs| && vavs[i] in pm && x == NameIn(pm[vavs[i]], pt)
    {
      if x != "" && (exists i :: 0 <= i < |vavs| && vavs[i] in pm && x == NameIn(pm[vavs[i]], pt)) {
        var i :| 0 <= i < |vavs| && vavs[i] in pm && x == NameIn(pm[vavs[i]], pt);
        if i < n {
          assert vavs[..n][i] == vavs[i];
        }
      }
      if x in xs {
        var i :| 0 <= i < n && vavs[..n][i] in pm && x == NameIn(pm[vavs[..n][i]], pt);
        assert vavs[i] == vavs[..n][i];
      }
    }
  }

  /** The set of each role holds exactly the non-empty names of that role on
      the VAVs. */
  lemma VavSetsSpec(rt: string, dt: string, pm: map<string, map<string, string>>, vavs: seq<string>)
    ensures VavSets(rt, dt, pm, vavs).Ok? <==> forall i :: 0 <= i < |vavs| ==> vavs[i] in pm
    ensures VavSets(rt, dt, pm, vavs).Ok? ==> RoleNames(rt, dt, pm, vavs, VavSets(rt, dt, pm, vavs).value)
  {
    VavSetsOk(rt, dt, pm, vavs);
    if VavSets(rt, dt, pm, vavs).Ok? {
      VavSetsRole(rt, dt, pm, vavs, "zone_reheat");
      VavSetsRole(rt, dt, pm, vavs, "zone_damper");
    }
  }

  lemma VavSetsStep(rt: string, dt: string, pm: map<string, map<string, string>>, vavs: seq<string>, i: nat)
    requires i < |vavs| && VavSets(rt, dt, pm, vavs[..i]).Ok?
    ensures var v := vavs[i]; var p := VavSets(rt, dt, pm, vavs[..i]).value;
      VavSets(rt, dt, pm, vavs[..i + 1]) ==
        if v !in pm then Err(KeyErrorMsg(v))
        else Ok(AddNamed(AddNamed(p, "zone_reheat", NameIn(pm[v], rt)), "zone_damper", NameIn(pm[v], dt)))
  {
    assert vavs[..i + 1][..i] == vavs[..i];
  }

  lemma {:induction false} VavSetsPrefixErr(rt: string, dt: string, pm: map<string, map<string, string>>, vavs: seq<string>, k: nat)
    requires k <= |vavs| && VavSets(rt, dt, pm, vavs[..k]).Err?
    ensures VavSets(rt, dt, pm, vavs).Err?
    decreases |vavs| - k
  {
    if k < |vavs| {
      assert vavs[..k + 1][..k] == vavs[..k];
      VavSetsPrefixErr(rt, dt, pm, vavs, k + 1);
    } else {
      assert vavs[..k] == vavs;
    }
  }
}
