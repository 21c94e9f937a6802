/** The src driver generator over the Postgres tag tables
    (`driver/intellimation/config_intellimation.py`). It keeps no state of its
    own: `get_ahu_and_vavs` returns the AHU → VAVs query result as it is, and
    each config is built from the first point row of its equipment, with the
    query of the driver template filled in. The topic patterns are
    `prefix + "{}"` and `prefix + "{}/{}"`. */
module DriverSrcDb {
  import opened Wrappers
  import opened Strs
  import opened Json
  import opened Names
  import opened Topics
  import opened Drivers
  import opened ODicts

  /** The topic prefix, the template, and the point query with `LIMIT 1`:
      the `(device_name, topic_name)` row of an equipment, when it has one. */
  datatype DbSetup = DbSetup(prefix: string, template: Json, firstPoint: map<string, (string, string)>)

  predicate ValidSetup(s: DbSetup) {
    DriverTemplate(s.template)
  }

  /** `query_device_id_name`: `None` without a point row; otherwise the row's
      device name and the object name of its topic, whose `ValueError`
      propagates. */
  function QueryDeviceIdName(s: DbSetup, equipId: string, equipType: string): Result<Option<(string, string)>>
    requires ValidSetup(s)
  {
    if equipId !in s.firstPoint then Ok(None)
    else
      var (dev, topic) := s.firstPoint[equipId];
      var obj :- ObjectNameFromTopic(topic, equipType, QueryOf(s.template));
      Ok(Some((dev, obj)))
  }

  /** The message of unpacking the `None` of an equipment without points. */
  const UnpackNoneMsg := "TypeError: cannot unpack non-iterable NoneType object"

  /** `generate_config_from_template` */
  function ConfigFor(s: DbSetup, equipId: string, equipType: string): Result<Json>
    requires ValidSetup(s)
  {
    var ids :- QueryDeviceIdName(s, equipId, equipType);
    if ids.None? then Err(UnpackNoneMsg)
    else Ok(Formatted(s.template, Some(ids.value.0), Some(ids.value.1)))
  }

  /** The lookup is `None` exactly without a point row, fails exactly when an
      AHU's topic has no `[digits]` in its last segment while the query asks
      for an object name, and otherwise carries the row's device name. */
  lemma QueryDeviceIdNameSpec(s: DbSetup, equipId: string, equipType: string)
    requires ValidSetup(s)
    ensures var r := QueryDeviceIdName(s, equipId, equipType);
      (r == Ok(None) <==> equipId !in s.firstPoint) &&
      (r.Err? <==> (equipId in s.firstPoint &&
        equipType == "ahu" && Contains(QueryOf(s.template), "attr_prop_object_name") &&
        var part := LastSegment(s.firstPoint[equipId].1); forall i :: 0 <= i < |part| ==> !BracketAt(part, i))) &&
      (r.Ok? && r.value.Some? ==>
        r.value.value.0 == s.firstPoint[equipId].0 &&
        Ok(r.value.value.1) == ObjectNameFromTopic(s.firstPoint[equipId].1, equipType, QueryOf(s.template)))
  {
    if equipId in s.firstPoint {
      ObjectNameFromTopicSpec(s.firstPoint[equipId].1, equipType, QueryOf(s.template));
    }
  }

  /** A config exists exactly when the lookup finds a row and an object name;
      it is the template with only its query substituted. */
  lemma ConfigForSpec(s: DbSetup, equipId: string, equipType: string)
    requires ValidSetup(s)
    ensures var c := ConfigFor(s, equipId, equipType); var ids := QueryDeviceIdName(s, equipId, equipType);
      (c.Ok? <==> ids.Ok? && ids.value.Some?) &&
      (ids == Ok(None) ==> c == Err(UnpackNoneMsg)) &&
      (c.Ok? ==> (DriverTemplate(c.value) &&
        QueryOf(c.value) == FormatQuery(QueryOf(s.template), ids.value.value.0, ids.value.value.1) &&
        c.value == WithQuery(s.template, QueryOf(c.value))))
  {
    var ids := QueryDeviceIdName(s, equipId, equipType);
    if ids.Ok? && ids.value.Some? {
      FormattedSpec(s.template, Some(ids.value.value.0), Some(ids.value.value.1));
    }
  }

  /** The VAV configs, in order, up to the first failure. */
  function Configs(s: DbSetup, vavs: seq<string>): (r: Result<seq<Json>>)
    requires ValidSetup(s)
    ensures r.Ok? ==> |r.value| == |vavs|
    decreases |vavs|
  {
    if vavs == [] then Ok([])
    else
      var n := |vavs| - 1;
      var p :- Configs(s, vavs[..n]);
      var c :- ConfigFor(s, vavs[n], "vav");
      Ok(p + [c])
  }

  /** The VAV configs succeed exactly when each does, and the i-th is that
      VAV's config. */
  lemma ConfigsSpec(s: DbSetup, vavs: seq<string>)
    requires ValidSetup(s)
    ensures Configs(s, vavs).Ok? <==> forall i :: 0 <= i < |vavs| ==> ConfigFor(s, vavs[i], "vav").Ok?
    ensures Configs(s, vavs).Ok? ==> forall i :: 0 <= i < |vavs| ==> Configs(s, vavs).value[i] == ConfigFor(s, vavs[i], "vav").value
  {
    ConfigsOk(s, vavs);
    if Configs(s, vavs).Ok? {
      ConfigsValues(s, vavs);
    }
  }

  lemma {:induction false} ConfigsOk(s: DbSetup, vavs: seq<string>)
    requires ValidSetup(s)
    ensures Configs(s, vavs).Ok? <==> forall i :: 0 <= i < |vavs| ==> ConfigFor(s, vavs[i], "vav").Ok?
    decreases |vavs|
  {
    if vavs != [] {
      var n := |vavs| - 1;
      ConfigsOk(s, vavs[..n]);
      assert forall i :: 0 <= i < n ==> vavs[..n][i] == vavs[i];
    }
  }

  lemma {:induction false} ConfigsValues(s: DbSetup, vavs: seq<string>)
    requires ValidSetup(s) && Configs(s, vavs).Ok?
    ensures forall i :: 0 <= i < |vavs| ==>
      ConfigFor(s, vavs[i], "vav").Ok? && Configs(s, vavs).value[i] == ConfigFor(s, vavs[i], "vav").value
    decreases |vavs|
  {
    if vavs != [] {
      var n := |vavs| - 1;
      var p := Configs(s, vavs[..n]);
      ConfigsValues(s, vavs[..n]);
      assert Configs(s, vavs).value == p.value + [ConfigFor(s, vavs[n], "vav").value];
      assert forall i :: 0 <= i < n ==> vavs[..n][i] == vavs[i];
    }
  }

  /** `generate_ahu_configs`: the AHU entry, then one per VAV. */
  function AhuMapper(s: DbSetup, ahuId: string, vavs: seq<string>): Result<ODict<Json>>
    requires ValidSetup(s)
  {
    var ahu := NameFromId(ahuId);
    var h :- ConfigFor(s, ahuId, "ahu");
    var cs :- Configs(s, vavs);
    Ok(PutAll([(AhuTopic(s.prefix, ahu), h)], AhuVavTopics(s.prefix, ahu, vavs), cs))
  }

  /** The mapper fails exactly when the AHU or some VAV has no config; its
      keys are the AHU topic and the VAV topics, each once; the AHU topic
      holds the AHU's config and each VAV topic the config of the last VAV
      with that topic. */
  lemma AhuMapperSpec(s: DbSetup, ahuId: string, vavs: seq<string>)
    requires ValidSetup(s)
    ensures var m := AhuMapper(s, ahuId, vavs);
      (m.Ok? <==> ConfigFor(s, ahuId, "ahu").Ok? && forall i :: 0 <= i < |vavs| ==> ConfigFor(s, vavs[i], "vav").Ok?)
    ensures var m := AhuMapper(s, ahuId, vavs);
      var ahu := NameFromId(ahuId);
      var ts := AhuVavTopics(s.prefix, ahu, vavs);
      m.Ok? ==>
        UniqueKeys(m.value) &&
        (forall k :: k in Keys(m.value) <==> k == AhuTopic(s.prefix, ahu) || k in ts) &&
        Get(m.value, AhuTopic(s.prefix, ahu)) == Some(ConfigFor(s, ahuId, "ahu").value) &&
        forall i :: 0 <= i < |vavs| && (forall j :: i < j < |vavs| ==> ts[j] != ts[i]) ==>
          Get(m.value, ts[i]) == Some(ConfigFor(s, vavs[i], "vav").value)
  {
    ConfigsSpec(s, vavs);
    var m := AhuMapper(s, ahuId, vavs);
    if m.Ok? {
      var ahu := NameFromId(ahuId);
      var ts := AhuVavTopics(s.prefix, ahu, vavs);
      var h := ConfigFor(s, ahuId, "ahu").value;
      var cs := Configs(s, vavs).value;
      var head := [(AhuTopic(s.prefix, ahu), h)];
      assert m.value == PutAll(head, ts, cs);
      assert Keys(head) == [AhuTopic(s.prefix, ahu)];
      PutAllKeys(head, ts, cs);
      assert forall j :: 0 <= j < |ts| ==> |ts[j]| > |AhuTopic(s.prefix, ahu)|;
      PutAllUntouched(head, ts, cs, AhuTopic(s.prefix, ahu));
      forall i | 0 <= i < |vavs| && (forall j :: i < j < |vavs| ==> ts[j] != ts[i])
        ensures Get(m.value, ts[i]) == Some(ConfigFor(s, vavs[i], "vav").value)
      {
        PutAllLast(head, ts, cs, i);
      }
    }
  }

  lemma {:induction false} ConfigsPrefixErr(s: DbSetup, vavs: seq<string>, k: nat)
    requires ValidSetup(s) && k <= |vavs| && Configs(s, vavs[..k]).Err?
    ensures Configs(s, vavs).Err?
    decreases |vavs| - k
  {
    if k < |vavs| {
      assert vavs[..k + 1][..k] == vavs[..k];
      ConfigsPrefixErr(s, vavs, k + 1);
    } else {
      assert vavs[..k] == vavs;
    }
  }

  lemma ConfigsStep(s: DbSetup, vavs: seq<string>, i: nat)
    requires ValidSetup(s) && i < |vavs| && Configs(s, vavs[..i]).Ok?
    ensures var c := ConfigFor(s, vavs[i], "vav");
      Configs(s, vavs[..i + 1]) == if c.Err? then Err(c.msg) else Ok(Configs(s, vavs[..i]).value + [c.value])
  {
    assert vavs[..i + 1][..i] == vavs[..i];
  }

  /** `generate_ahu_configs`, filling `final_mapper` one VAV at a time. */
  method GenerateAhuConfigs(s: DbSetup, ahuId: string, vavs: seq<string>) returns (r: Result<(string, ODict<Json>)>)
    requires ValidSetup(s)
    ensures var e := AhuMapper(s, ahuId, vavs);
      (r.Ok? <==> e.Ok?) && (r.Ok? ==> r.value == (NameFromId(ahuId), e.value))
  {
    var ahu := NameFromId(ahuId);
    var h := ConfigFor(s, ahuId, "ahu");
    if h.Err? {
      return Err(h.msg);
    }
    var mapper := Put([], AhuTopic(s.prefix, ahu), h.value);
    ghost var head := mapper;
    var ts := AhuVavTopics(s.prefix, ahu, vavs);
    var i := 0;
    while i < |vavs|
      invariant 0 <= i <= |vavs|
      invariant Configs(s, vavs[..i]).Ok? && mapper == PutAll(head, ts[..i], Configs(s, vavs[..i]).value)
    {
      ConfigsStep(s, vavs, i);
      var c := ConfigFor(s, vavs[i], "vav");
      if c.Err? {
        ConfigsPrefixErr(s, vavs, i + 1);
        return Err(c.msg);
      }
      PutAllStep(head, ts, Configs(s, vavs[..i]).value, i, c.value);
      mapper := Put(mapper, ts[i], c.value);
      i := i + 1;
    }
    assert vavs[..i] == vavs && ts[..i] == ts;
    r := Ok((ahu, mapper));
  }
}
