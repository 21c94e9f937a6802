/** The config_generators driver generator over the Postgres tag tables
    (`IntellimationDriverConfigGenerator` with its `DriverConfigGenerator`
    base): it groups VAVs under AHUs from three query results, looks up one
    point per equipment, and fills the query of the driver template for each
    AHU and VAV, recording what it could not map in `unmapped_device_details`. */
module DriverCg {
  import opened Wrappers
  import opened Strs
  import opened Json
  import opened Names
  import opened Topics
  import opened Drivers
  import opened Collapse

  /** The point of an equipment as `query_device_id_name` returns it when it
      succeeds: its topic name, device name and object name. */
  datatype DeviceInfo = DeviceInfo(topic: string, deviceId: string, objName: string)

  /** The keys of an AHU → VAVs result, in order. */
  function GroupKeys(groups: seq<(string, seq<string>)>): (ks: seq<string>)
    ensures |ks| == |groups| && forall i :: 0 <= i < |groups| ==> ks[i] == groups[i].0
  {
    seq(|groups|, i requires 0 <= i < |groups| => groups[i].0)
  }

  /** What the generator is given: the topic prefix of `__init__` (see
      `Drivers.DriverSetup`), the template, the point table's name, and the
      results of the queries it runs. */
  datatype DbSetup = DbSetup(
    prefix: string,
    template: Json,
    pointTable: string,
    /** Query 1: `(ahuRef, json_agg(topic_name))` for each non-empty ahuRef
        of the VAVs. */
    mappedGroups: seq<(string, seq<string>)>,
    /** Query 2: the ids of the AHU-tagged equipment. */
    ahuIds: seq<string>,
    /** Query 3: the ids of the VAVs whose ahuRef is null or empty. */
    orphanVavs: seq<string>,
    /** The point query with `LIMIT 1`: the `(device_name, topic_name)` row of
        an equipment, when it has one. */
    firstPoint: map<string, (string, string)>)

  predicate ValidSetup(s: DbSetup) {
    DriverTemplate(s.template)
  }

  /** What `get_ahu_and_vavs` returns: the mapped groups first; then, only
      when there are more AHUs than groups, each AHU that is not a group key
      once with no VAVs (in an order the model leaves open); then, when there
      are orphan VAVs, one `("", ids)` group holding them. */
  predicate AhuAndVavs(s: DbSetup, groups: seq<(string, seq<string>)>) {
    var tail := if s.orphanVavs != [] then 1 else 0;
    |s.mappedGroups| + tail <= |groups| &&
    groups[..|s.mappedGroups|] == s.mappedGroups &&
    (s.orphanVavs != [] ==> groups[|groups| - 1] == ("", s.orphanVavs)) &&
    var extra := groups[|s.mappedGroups|..|groups| - tail];
    (forall i :: 0 <= i < |extra| ==> extra[i].1 == []) &&
    (if |s.ahuIds| > |s.mappedGroups|
     then ListsExactly(GroupKeys(extra), MissingAhus(s))
     else extra == [])
  }

  /** `set(ahu_list) - set([x[0] for x in result])` */
  function MissingAhus(s: DbSetup): set<string> {
    (set a | a in s.ahuIds) - (set k | k in GroupKeys(s.mappedGroups))
  }

  /** The `try` block of `query_device_id_name`: the first point row and the
      object name derived from its topic, or the error message. */
  function DeviceLookup(s: DbSetup, equipId: string, equipType: string): Result<DeviceInfo>
    requires ValidSetup(s)
  {
    if equipId !in s.firstPoint then
      Err("Unable to find any points for " + equipId + " from table:" + s.pointTable)
    else
      var (dev, topic) := s.firstPoint[equipId];
      match ObjectNameFromTopic(topic, equipType, QueryOf(s.template))
      case Err(m) => Err(m)
      case Ok(obj) => Ok(DeviceInfo(topic, dev, obj))
  }

  /** The lookup fails exactly when there is no point row, or when an AHU's
      topic has no `[digits]` in its last segment while the query asks for an
      object name. A success carries the row's device name and topic. */
  lemma DeviceLookupSpec(s: DbSetup, equipId: string, equipType: string)
    requires ValidSetup(s)
    ensures DeviceLookup(s, equipId, equipType).Err? <==>
      equipId !in s.firstPoint ||
      (equipType == "ahu" && Contains(QueryOf(s.template), "attr_prop_object_name") &&
       var part := LastSegment(s.firstPoint[equipId].1);
       forall i :: 0 <= i < |part| ==> !BracketAt(part, i))
    ensures DeviceLookup(s, equipId, equipType).Ok? ==>
      DeviceLookup(s, equipId, equipType).value.deviceId == s.firstPoint[equipId].0 &&
      DeviceLookup(s, equipId, equipType).value.topic == s.firstPoint[equipId].1
  {
    if equipId in s.firstPoint {
      ObjectNameFromTopicSpec(s.firstPoint[equipId].1, equipType, QueryOf(s.template));
    }
  }

  /** `unmapped_device_details` after `query_device_id_name`: an existing VAV
      record gains the point's topic name, and a failed lookup writes the
      equipment type and the message into the record. */
  function LookupTable(s: DbSetup, t: Table, equipId: string, equipType: string): Table
    requires ValidSetup(s)
  {
    var t1 := if equipId in s.firstPoint && equipType == "vav" && equipId in t
              then Mark(t, equipId, map["topic_name" := JStr(s.firstPoint[equipId].1)]) else t;
    match DeviceLookup(s, equipId, equipType)
    case Ok(_) => t1
    case Err(m) => Mark(t1, equipId, ErrorRecord(equipType, m))
  }

  function DeviceIdOf(r: Result<DeviceInfo>): Option<string> {
    if r.Ok? then Some(r.value.deviceId) else None
  }

  function ObjNameOf(r: Result<DeviceInfo>): Option<string> {
    if r.Ok? then Some(r.value.objName) else None
  }

  /** What `generate_config_from_template` returns. */
  function Config(s: DbSetup, equipId: string, equipType: string): Option<Json>
    requires ValidSetup(s)
  {
    var info := DeviceLookup(s, equipId, equipType);
    if MissingPlaceholder(QueryOf(s.template), DeviceIdOf(info), ObjNameOf(info)) then None
    else Some(Formatted(s.template, DeviceIdOf(info), ObjNameOf(info)))
  }

  /** `unmapped_device_details` after `generate_config_from_template`. */
  function ConfigTable(s: DbSetup, t: Table, equipId: string, equipType: string): Table
    requires ValidSetup(s)
  {
    var info := DeviceLookup(s, equipId, equipType);
    var t1 := LookupTable(s, t, equipId, equipType);
    if MissingPlaceholder(QueryOf(s.template), DeviceIdOf(info), ObjNameOf(info)) then
      // The guard fails only without a lookup result, so the topic is `None`.
      Mark(t1, equipId, TopicRecord(equipType, ParseErrorCg, JNull))
    else t1
  }

  /** The config is `None` exactly when the query has a placeholder and the
      point lookup failed. */
  lemma ConfigNone(s: DbSetup, equipId: string, equipType: string)
    requires ValidSetup(s)
    ensures var q := QueryOf(s.template);
      Config(s, equipId, equipType).None? <==>
        (Contains(q, "{device_id}") || Contains(q, "{obj_name}")) && DeviceLookup(s, equipId, equipType).Err?
  {
  }

  /** After a successful lookup the config is the template with only the
      query changed, to the query with the device id and object name
      substituted; it is never empty. */
  lemma ConfigFound(s: DbSetup, equipId: string, equipType: string)
    requires ValidSetup(s) && DeviceLookup(s, equipId, equipType).Ok?
    ensures var info := DeviceLookup(s, equipId, equipType).value;
      Config(s, equipId, equipType) ==
        Some(WithQuery(s.template, FormatQuery(QueryOf(s.template), info.deviceId, info.objName))) &&
      Present(Config(s, equipId, equipType))
  {
  }

  /** After a failed lookup that the query does not need, the config is the
      template itself. */
  lemma ConfigUnneeded(s: DbSetup, equipId: string, equipType: string)
    requires ValidSetup(s) && DeviceLookup(s, equipId, equipType).Err?
    requires !Contains(QueryOf(s.template), "{device_id}") && !Contains(QueryOf(s.template), "{obj_name}")
    ensures Config(s, equipId, equipType) == Some(s.template)
  {
    var info := DeviceLookup(s, equipId, equipType);
    FormattedSpec(s.template, DeviceIdOf(info), ObjNameOf(info));
  }

  /** A config that failed leaves the equipment with a record naming its type
      and the parse error, with no topic. */
  lemma ConfigTableFailed(s: DbSetup, t: Table, equipId: string, equipType: string)
    requires ValidSetup(s) && Config(s, equipId, equipType).None?
    ensures var t2 := ConfigTable(s, t, equipId, equipType);
      HasRecord(t2, equipId) && t2[equipId]["type"] == JStr(equipType) &&
      t2[equipId]["error"] == JStr(ParseErrorCg) && t2[equipId]["topic_name"] == JNull
  {
    var t1 := LookupTable(s, t, equipId, equipType);
    var rec := TopicRecord(equipType, ParseErrorCg, JNull);
    assert ConfigTable(s, t, equipId, equipType) == Mark(t1, equipId, rec);
    assert "type" in rec;
    MarkSpec(t1, equipId, rec);
  }

  /** A failed lookup that the query does not need still leaves its message. */
  lemma ConfigTableLookupFailed(s: DbSetup, t: Table, equipId: string, equipType: string)
    requires ValidSetup(s) && Config(s, equipId, equipType).Some? && DeviceLookup(s, equipId, equipType).Err?
    ensures var t2 := ConfigTable(s, t, equipId, equipType);
      HasRecord(t2, equipId) && t2[equipId]["type"] == JStr(equipType) &&
      t2[equipId]["error"] == JStr(DeviceLookup(s, equipId, equipType).msg)
  {
    var t1 := if equipId in s.firstPoint && equipType == "vav" && equipId in t
              then Mark(t, equipId, map["topic_name" := JStr(s.firstPoint[equipId].1)]) else t;
    var rec := ErrorRecord(equipType, DeviceLookup(s, equipId, equipType).msg);
    assert ConfigTable(s, t, equipId, equipType) == LookupTable(s, t, equipId, equipType) == Mark(t1, equipId, rec);
    assert "type" in rec;
    MarkSpec(t1, equipId, rec);
  }

  /** A successful lookup only adds the point's topic to an existing VAV
      record. */
  lemma ConfigTableFound(s: DbSetup, t: Table, equipId: string, equipType: string)
    requires ValidSetup(s) && DeviceLookup(s, equipId, equipType).Ok?
    ensures ConfigTable(s, t, equipId, equipType) ==
      if equipId in t && equipType == "vav"
      then Mark(t, equipId, map["topic_name" := JStr(DeviceLookup(s, equipId, equipType).value.topic)]) else t
  {
    DeviceLookupSpec(s, equipId, equipType);
  }

  /** `t2` keeps every record of `t` and, apart from `id`'s, leaves them as
      they were; it adds at most `id`. */
  predicate Grows(t: Table, t2: Table, id: string) {
    t.Keys <= t2.Keys <= t.Keys + {id} &&
    forall k :: k in t && k != id ==> t2[k] == t[k]
  }

  lemma GrowsMark(t: Table, id: string, fields: Record)
    ensures Grows(t, Mark(t, id, fields), id)
  {
    MarkSpec(t, id, fields);
  }

  lemma GrowsTrans(t: Table, t1: Table, t2: Table, id: string)
    requires Grows(t, t1, id) && Grows(t1, t2, id)
    ensures Grows(t, t2, id)
  {
  }

  lemma LookupTableFrame(s: DbSetup, t: Table, equipId: string, equipType: string)
    requires ValidSetup(s)
    ensures Grows(t, LookupTable(s, t, equipId, equipType), equipId)
  {
    var t1 := if equipId in s.firstPoint && equipType == "vav" && equipId in t
              then Mark(t, equipId, map["topic_name" := JStr(s.firstPoint[equipId].1)]) else t;
    if equipId in s.firstPoint && equipType == "vav" && equipId in t {
      GrowsMark(t, equipId, map["topic_name" := JStr(s.firstPoint[equipId].1)]);
    }
    var info := DeviceLookup(s, equipId, equipType);
    if info.Err? {
      GrowsMark(t1, equipId, ErrorRecord(equipType, info.msg));
      GrowsTrans(t, t1, Mark(t1, equipId, ErrorRecord(equipType, info.msg)), equipId);
    }
  }

  /** No record is removed, and only the equipment's own record can change. */
  lemma ConfigTableFrame(s: DbSetup, t: Table, equipId: string, equipType: string)
    requires ValidSetup(s)
    ensures var t2 := ConfigTable(s, t, equipId, equipType);
      t.Keys <= t2.Keys <= t.Keys + {equipId} &&
      (forall k :: k in t && k != equipId ==> t2[k] == t[k])
  {
    var t1 := LookupTable(s, t, equipId, equipType);
    LookupTableFrame(s, t, equipId, equipType);
    GrowsMark(t1, equipId, TopicRecord(equipType, ParseErrorCg, JNull));
    GrowsTrans(t, t1, Mark(t1, equipId, TopicRecord(equipType, ParseErrorCg, JNull)), equipId);
    assert Grows(t, ConfigTable(s, t, equipId, equipType), equipId);
  }

  /** The VAV topics: `prefix + ahu + "/" + vav`, or `prefix + vav` when there
      is no AHU id. */
  function VavTopics(s: DbSetup, ahuId: string, ahu: string, vavs: seq<string>): (ts: seq<string>)
    ensures |ts| == |vavs|
    decreases |vavs|
  {
    if vavs == [] then []
    else
      var n := |vavs| - 1;
      VavTopics(s, ahuId, ahu, vavs[..n]) + [VavTopic(s.prefix, ahuId, ahu, NameFromId(vavs[n]))]
  }

  lemma {:induction false} VavTopicsAt(s: DbSetup, ahuId: string, ahu: string, vavs: seq<string>, i: nat)
    requires i < |vavs|
    ensures VavTopics(s, ahuId, ahu, vavs)[i] == VavTopic(s.prefix, ahuId, ahu, NameFromId(vavs[i]))
    decreases |vavs|
  {
    var n := |vavs| - 1;
    if i < n {
      VavTopicsAt(s, ahuId, ahu, vavs[..n], i);
    }
  }

  /** The VAVs' configs, in order. */
  function VavConfigs(s: DbSetup, vavs: seq<string>): (cs: seq<Option<Json>>)
    requires ValidSetup(s)
    ensures |cs| == |vavs|
    decreases |vavs|
  {
    if vavs == [] then []
    else
      var n := |vavs| - 1;
      VavConfigs(s, vavs[..n]) + [Config(s, vavs[n], "vav")]
  }

  lemma {:induction false} VavConfigsAt(s: DbSetup, vavs: seq<string>, i: nat)
    requires ValidSetup(s) && i < |vavs|
    ensures VavConfigs(s, vavs)[i] == Config(s, vavs[i], "vav")
    decreases |vavs|
  {
    var n := |vavs| - 1;
    if i < n {
      VavConfigsAt(s, vavs[..n], i);
    }
  }

  /** The AHU's own entry: present when the AHU has an id and a config. */
  function HeadEntries(s: DbSetup, ahuId: string): seq<DriverEntry>
    requires ValidSetup(s)
  {
    var c := if ahuId != "" then Config(s, ahuId, "ahu") else None;
    if Present(c) then [DriverEntry(AhuTopic(s.prefix, NameFromId(ahuId)), c.value)] else []
  }

  /** The entries of the VAVs, appended one VAV at a time. */
  function VavEntries(s: DbSetup, ahuId: string, ahu: string, vavs: seq<string>): seq<DriverEntry>
    requires ValidSetup(s)
    decreases |vavs|
  {
    if vavs == [] then []
    else
      var n := |vavs| - 1;
      var c := Config(s, vavs[n], "vav");
      VavEntries(s, ahuId, ahu, vavs[..n]) +
        (if Present(c) then [DriverEntry(VavTopic(s.prefix, ahuId, ahu, NameFromId(vavs[n])), c.value)] else [])
  }

  lemma VavEntriesSnoc(s: DbSetup, ahuId: string, ahu: string, vavs: seq<string>, i: nat)
    requires ValidSetup(s) && i < |vavs|
    ensures var c := Config(s, vavs[i], "vav");
      VavEntries(s, ahuId, ahu, vavs[..i + 1]) == VavEntries(s, ahuId, ahu, vavs[..i]) +
        (if Present(c) then [DriverEntry(VavTopic(s.prefix, ahuId, ahu, NameFromId(vavs[i])), c.value)] else [])
  {
    assert vavs[..i + 1][..i] == vavs[..i];
  }

  /** The `driver_vip` list of `generate_ahu_configs`. */
  function AhuEntries(s: DbSetup, ahuId: string, vavs: seq<string>): seq<DriverEntry>
    requires ValidSetup(s)
  {
    HeadEntries(s, ahuId) + VavEntries(s, ahuId, NameFromId(ahuId), vavs)
  }

  /** The VAV entries are the present configs under their topics, in VAV order. */
  lemma {:induction false} VavEntriesKept(s: DbSetup, ahuId: string, ahu: string, vavs: seq<string>)
    requires ValidSetup(s)
    ensures VavEntries(s, ahuId, ahu, vavs) == Kept(VavTopics(s, ahuId, ahu, vavs), VavConfigs(s, vavs))
    decreases |vavs|
  {
    if vavs != [] {
      var n := |vavs| - 1;
      VavEntriesKept(s, ahuId, ahu, vavs[..n]);
      KeptSnoc(VavTopics(s, ahuId, ahu, vavs[..n]), VavConfigs(s, vavs[..n]),
               VavTopic(s.prefix, ahuId, ahu, NameFromId(vavs[n])), Config(s, vavs[n], "vav"));
    }
  }

  /** The table after the VAVs' configs, one after the other. */
  function VavsTable(s: DbSetup, t: Table, vavs: seq<string>): Table
    requires ValidSetup(s)
    decreases |vavs|
  {
    if vavs == [] then t
    else ConfigTable(s, VavsTable(s, t, vavs[..|vavs| - 1]), vavs[|vavs| - 1], "vav")
  }

  /** The table after `generate_ahu_configs`. */
  function AhuTable(s: DbSetup, t: Table, ahuId: string, vavs: seq<string>): Table
    requires ValidSetup(s)
  {
    VavsTable(s, if ahuId != "" then ConfigTable(s, t, ahuId, "ahu") else t, vavs)
  }

  /** The properties of `generate_ahu_configs`: the AHU entry, with topic
      `prefix + ahu`, is the first one exactly when the AHU has an id and a
      config; then come the VAV entries in VAV order, one for each VAV with a
      config, under its VAV topic. */
  lemma AhuEntriesSpec(s: DbSetup, ahuId: string, vavs: seq<string>)
    requires ValidSetup(s)
    ensures var es := AhuEntries(s, ahuId, vavs);
      var ahu := NameFromId(ahuId);
      var head := HeadEntriesLen(s, ahuId);
      var cs := VavConfigs(s, vavs);
      |es| == head + CountPresent(cs) &&
      (head == 1 ==> es[0] == DriverEntry(AhuTopic(s.prefix, ahu), Config(s, ahuId, "ahu").value)) &&
      (forall i :: 0 <= i < |vavs| && Present(cs[i]) ==>
        head + CountPresent(cs[..i]) < |es| &&
        es[head + CountPresent(cs[..i])] ==
          DriverEntry(VavTopic(s.prefix, ahuId, ahu, NameFromId(vavs[i])), cs[i].value))
  {
    var ahu := NameFromId(ahuId);
    var cs := VavConfigs(s, vavs);
    AhuEntriesHead(s, ahuId, vavs);
    forall i | 0 <= i < |vavs| && Present(cs[i])
      ensures HeadEntriesLen(s, ahuId) + CountPresent(cs[..i]) < |AhuEntries(s, ahuId, vavs)| &&
        AhuEntries(s, ahuId, vavs)[HeadEntriesLen(s, ahuId) + CountPresent(cs[..i])] ==
          DriverEntry(VavTopic(s.prefix, ahuId, ahu, NameFromId(vavs[i])), cs[i].value)
    {
      AhuEntriesAt(s, ahuId, vavs, i);
    }
  }

  lemma AhuEntriesHead(s: DbSetup, ahuId: string, vavs: seq<string>)
    requires ValidSetup(s)
    ensures var es := AhuEntries(s, ahuId, vavs);
      var head := HeadEntriesLen(s, ahuId);
      |es| == head + CountPresent(VavConfigs(s, vavs)) &&
      (head == 1 ==> es[0] == DriverEntry(AhuTopic(s.prefix, NameFromId(ahuId)), Config(s, ahuId, "ahu").value))
  {
    var ahu := NameFromId(ahuId);
    var ts := VavTopics(s, ahuId, ahu, vavs);
    var cs := VavConfigs(s, vavs);
    VavEntriesKept(s, ahuId, ahu, vavs);
    KeptLen(ts, cs);
    assert |HeadEntries(s, ahuId)| == HeadEntriesLen(s, ahuId);
  }

  /** 1 when the AHU has an id and a config, else 0. */
  function HeadEntriesLen(s: DbSetup, ahuId: string): nat
    requires ValidSetup(s)
  {
    if ahuId != "" && Present(Config(s, ahuId, "ahu")) then 1 else 0
  }

  lemma AhuEntriesAt(s: DbSetup, ahuId: string, vavs: seq<string>, i: nat)
    requires ValidSetup(s) && i < |vavs| && Present(VavConfigs(s, vavs)[i])
    ensures var cs := VavConfigs(s, vavs);
      var k := HeadEntriesLen(s, ahuId) + CountPresent(cs[..i]);
      k < |AhuEntries(s, ahuId, vavs)| &&
      AhuEntries(s, ahuId, vavs)[k] ==
        DriverEntry(VavTopic(s.prefix, ahuId, NameFromId(ahuId), NameFromId(vavs[i])), cs[i].value)
  {
    var ahu := NameFromId(ahuId);
    var ts := VavTopics(s, ahuId, ahu, vavs);
    var cs := VavConfigs(s, vavs);
    VavEntriesKept(s, ahuId, ahu, vavs);
    KeptAt(ts, cs, i);
    VavTopicsAt(s, ahuId, ahu, vavs, i);
    assert |HeadEntries(s, ahuId)| == HeadEntriesLen(s, ahuId);
  }

  lemma VavsTableStep(s: DbSetup, t: Table, vavs: seq<string>, i: nat)
    requires ValidSetup(s) && i < |vavs|
    ensures VavsTable(s, t, vavs[..i + 1]) == ConfigTable(s, VavsTable(s, t, vavs[..i]), vavs[i], "vav")
  {
    assert vavs[..i + 1][..i] == vavs[..i];
  }

  /** The unmapped table grows: no record is removed, and none of the
      equipment outside the AHU and its VAVs changes. */
  lemma {:induction false} AhuTableFrame(s: DbSetup, t: Table, ahuId: string, vavs: seq<string>)
    requires ValidSetup(s)
    ensures var t2 := AhuTable(s, t, ahuId, vavs);
      t.Keys <= t2.Keys &&
      forall k :: k in t && k != ahuId && k !in vavs ==> t2[k] == t[k]
  {
    var t1 := if ahuId != "" then ConfigTable(s, t, ahuId, "ahu") else t;
    if ahuId != "" {
      ConfigTableFrame(s, t, ahuId, "ahu");
    }
    VavsTableFrame(s, t1, vavs);
  }

  lemma {:induction false} VavsTableFrame(s: DbSetup, t: Table, vavs: seq<string>)
    requires ValidSetup(s)
    ensures var t2 := VavsTable(s, t, vavs);
      t.Keys <= t2.Keys && forall k :: k in t && k !in vavs ==> t2[k] == t[k]
    decreases |vavs|
  {
    if vavs != [] {
      var n := |vavs| - 1;
      VavsTableFrame(s, t, vavs[..n]);
      ConfigTableFrame(s, VavsTable(s, t, vavs[..n]), vavs[n], "vav");
      assert forall k :: k in vavs[..n] ==> k in vavs;
    }
  }

  /** What `generate_configs` writes for one AHU: the file and the list. */
  datatype Output = Output(file: OutFile, entries: seq<DriverEntry>)

  /** What is written for one AHU. */
  function AhuOutput(s: DbSetup, group: (string, seq<string>)): Output
    requires ValidSetup(s)
  {
    Output(OutFileFor(NameFromId(group.0)), AhuEntries(s, group.0, group.1))
  }

  /** The outputs of the AHUs of the result, in order. */
  function Outputs(s: DbSetup, groups: seq<(string, seq<string>)>): (os: seq<Output>)
    requires ValidSetup(s)
    ensures |os| == |groups|
    decreases |groups|
  {
    if groups == [] then []
    else
      var n := |groups| - 1;
      Outputs(s, groups[..n]) + [AhuOutput(s, groups[n])]
  }

  /** Every AHU of the result is written, in order, since `{driver_vip: [...]}`
      is never empty: to its own file exactly when its name is non-empty, with
      the entries of `generate_ahu_configs`. */
  lemma OutputsAt(s: DbSetup, groups: seq<(string, seq<string>)>, i: nat)
    requires ValidSetup(s) && i < |groups|
    ensures var o := Outputs(s, groups)[i];
      o.entries == AhuEntries(s, groups[i].0, groups[i].1) &&
      (o.file == UnmappedVavsFile <==> NameFromId(groups[i].0) == "") &&
      (o.file.AhuFile? ==> o.file.name == NameFromId(groups[i].0))
  {
    OutputsIndex(s, groups, i);
  }

  lemma {:induction false} OutputsIndex(s: DbSetup, groups: seq<(string, seq<string>)>, i: nat)
    requires ValidSetup(s) && i < |groups|
    ensures Outputs(s, groups)[i] == AhuOutput(s, groups[i])
    decreases |groups|
  {
    var n := |groups| - 1;
    if i < n {
      assert groups[..n][i] == groups[i];
      OutputsIndex(s, groups[..n], i);
    }
  }

  lemma OutputsSnoc(s: DbSetup, groups: seq<(string, seq<string>)>, i: nat)
    requires ValidSetup(s) && i < |groups|
    ensures Outputs(s, groups[..i + 1]) == Outputs(s, groups[..i]) + [AhuOutput(s, groups[i])]
  {
    assert groups[..i + 1][..i] == groups[..i];
  }

  /** The table after all the AHUs of the result, in order. */
  function OutputsTable(s: DbSetup, t: Table, groups: seq<(string, seq<string>)>): Table
    requires ValidSetup(s)
    decreases |groups|
  {
    if groups == [] then t
    else
      var n := |groups| - 1;
      AhuTable(s, OutputsTable(s, t, groups[..n]), groups[n].0, groups[n].1)
  }

  lemma OutputsTableStep(s: DbSetup, t: Table, groups: seq<(string, seq<string>)>, i: nat)
    requires ValidSetup(s) && i < |groups|
    ensures OutputsTable(s, t, groups[..i + 1]) == AhuTable(s, OutputsTable(s, t, groups[..i]), groups[i].0, groups[i].1)
  {
    assert groups[..i + 1][..i] == groups[..i];
  }

  /** No record is ever removed; so a run that met an orphan VAV, whose
      record `get_ahu_and_vavs` writes first, exits with status 1. */
  lemma {:induction false} OutputsTableGrows(s: DbSetup, t: Table, groups: seq<(string, seq<string>)>)
    requires ValidSetup(s)
    ensures t.Keys <= OutputsTable(s, t, groups).Keys
    ensures t != map[] ==> ExitStatus(OutputsTable(s, t, groups)) == 1
    decreases |groups|
  {
    if groups != [] {
      var n := |groups| - 1;
      OutputsTableGrows(s, t, groups[..n]);
      AhuTableFrame(s, OutputsTable(s, t, groups[..n]), groups[n].0, groups[n].1);
    }
    if t != map[] {
      var k :| k in t;
      assert k in OutputsTable(s, t, groups);
    }
  }

  /** The groups of `get_ahu_and_vavs` from the AHUs it adds. */
  lemma AhuAndVavsIntro(s: DbSetup, extra: seq<(string, seq<string>)>, tail: seq<(string, seq<string>)>,
                         groups: seq<(string, seq<string>)>)
    requires forall i :: 0 <= i < |extra| ==> extra[i].1 == []
    requires if |s.ahuIds| > |s.mappedGroups| then ListsExactly(GroupKeys(extra), MissingAhus(s)) else extra == []
    requires tail == if s.orphanVavs != [] then [("", s.orphanVavs)] else []
    requires groups == s.mappedGroups + extra + tail
    ensures AhuAndVavs(s, groups)
  {
    assert groups[..|s.mappedGroups|] == s.mappedGroups;
    assert groups[|s.mappedGroups|..|groups| - |tail|] == extra;
  }

  class IntellimationDriver {
    const setup: DbSetup
    /** `unmapped_device_details` */
    var unmapped: Table

    constructor (setup: DbSetup)
      requires ValidSetup(setup)
      ensures this.setup == setup && unmapped == map[]
    {
      this.setup := setup;
      this.unmapped := map[];
    }

    method GetAhuAndVavs() returns (groups: seq<(string, seq<string>)>)
      requires ValidSetup(setup)
      modifies this
      ensures AhuAndVavs(setup, groups)
      ensures unmapped == Overwrite(old(unmapped), setup.orphanVavs, NoAhuRefRecord())
    {
      var extra := [];
      if |setup.ahuIds| > |setup.mappedGroups| {
        extra := AhusWithoutVavs();
      }
      var tail := [];
      if setup.orphanVavs != [] {
        tail := [("", setup.orphanVavs)];
        MarkOrphans();
      }
      groups := setup.mappedGroups + extra + tail;
      AhuAndVavsIntro(setup, extra, tail, groups);
    }

    /** The loop over `set(ahu_list) - set(keys)` appending `(a, [])`. */
    method AhusWithoutVavs() returns (extra: seq<(string, seq<string>)>)
      ensures forall i :: 0 <= i < |extra| ==> extra[i].1 == []
      ensures ListsExactly(GroupKeys(extra), MissingAhus(setup))
    {
      var missing := SetToList(MissingAhus(setup));
      extra := [];
      var i := 0;
      while i < |missing|
        invariant 0 <= i <= |missing|
        invariant |extra| == i
        invariant forall j :: 0 <= j < i ==> extra[j] == (missing[j], [])
      {
        extra := extra + [(missing[i], [])];
        i := i + 1;
      }
      assert GroupKeys(extra) == missing;
    }

    /** `unmapped_device_details[vav] = {"type": "vav", "error": "Unable to
        find ahuRef"}` for each orphan VAV. */
    method MarkOrphans()
      modifies this
      ensures unmapped == Overwrite(old(unmapped), setup.orphanVavs, NoAhuRefRecord())
    {
      var vavs := setup.orphanVavs;
      var i := 0;
      while i < |vavs|
        invariant 0 <= i <= |vavs|
        invariant Overwrite(old(unmapped), vavs, NoAhuRefRecord()) ==
                  Overwrite(unmapped, vavs[i..], NoAhuRefRecord())
      {
        assert vavs[i..][0] == vavs[i] && vavs[i..][1..] == vavs[i + 1..];
        unmapped := unmapped[vavs[i] := NoAhuRefRecord()];
        i := i + 1;
      }
    }

    method QueryDeviceIdName(equipId: string, equipType: string) returns (info: Option<DeviceInfo>)
      requires ValidSetup(setup)
      modifies this
      ensures info == (var r := DeviceLookup(setup, equipId, equipType); if r.Ok? then Some(r.value) else None)
      ensures unmapped == LookupTable(setup, old(unmapped), equipId, equipType)
    {
      if equipId in setup.firstPoint && equipType == "vav" && equipId in unmapped {
        unmapped := Mark(unmapped, equipId, map["topic_name" := JStr(setup.firstPoint[equipId].1)]);
      }
      var r := DeviceLookup(setup, equipId, equipType);
      if r.Ok? {
        info := Some(r.value);
      } else {
        info := None;
        unmapped := Mark(unmapped, equipId, ErrorRecord(equipType, r.msg));
      }
    }

    method GenerateConfigFromTemplate(equipId: string, equipType: string) returns (c: Option<Json>)
      requires ValidSetup(setup)
      modifies this
      ensures c == Config(setup, equipId, equipType)
      ensures unmapped == ConfigTable(setup, old(unmapped), equipId, equipType)
    {
      var info := QueryDeviceIdName(equipId, equipType);
      var q := QueryOf(setup.template);
      var dev := if info.Some? then Some(info.value.deviceId) else None;
      var obj := if info.Some? then Some(info.value.objName) else None;
      if MissingPlaceholder(q, dev, obj) {
        unmapped := Mark(unmapped, equipId, TopicRecord(equipType, ParseErrorCg, JNull));
        c := None;
      } else {
        c := Some(Formatted(setup.template, dev, obj));
      }
    }

    /** The AHU part of `generate_ahu_configs`: its name and entry. */
    method AhuHeadConfig(ahuId: string) returns (ahu: string, entries: seq<DriverEntry>)
      requires ValidSetup(setup)
      modifies this
      ensures ahu == NameFromId(ahuId)
      ensures entries == HeadEntries(setup, ahuId)
      ensures unmapped == if ahuId != "" then ConfigTable(setup, old(unmapped), ahuId, "ahu") else old(unmapped)
    {
      ahu := NameFromId(ahuId);
      entries := [];
      if ahuId != "" {
        var topic := AhuTopic(setup.prefix, ahu);
        var c := GenerateConfigFromTemplate(ahuId, "ahu");
        if c.Some? && Truthy(c.value) {
          entries := entries + [DriverEntry(topic, c.value)];
        }
      }
    }

    method GenerateAhuConfigs(ahuId: string, vavs: seq<string>) returns (ahu: string, entries: seq<DriverEntry>)
      requires ValidSetup(setup)
      modifies this
      ensures ahu == NameFromId(ahuId)
      ensures entries == AhuEntries(setup, ahuId, vavs)
      ensures unmapped == AhuTable(setup, old(unmapped), ahuId, vavs)
    {
      var head;
      ahu, head := AhuHeadConfig(ahuId);
      var vavEntries := VavConfigsLoop(ahuId, ahu, vavs);
      entries := head + vavEntries;
    }

    /** The loop of `generate_ahu_configs` over the VAVs. */
    method VavConfigsLoop(ahuId: string, ahu: string, vavs: seq<string>) returns (entries: seq<DriverEntry>)
      requires ValidSetup(setup)
      modifies this
      ensures entries == VavEntries(setup, ahuId, ahu, vavs)
      ensures unmapped == VavsTable(setup, old(unmapped), vavs)
    {
      entries := [];
      ghost var t1 := unmapped;
      var i := 0;
      while i < |vavs|
        invariant 0 <= i <= |vavs|
        invariant entries == VavEntries(setup, ahuId, ahu, vavs[..i])
        invariant unmapped == VavsTable(setup, t1, vavs[..i])
      {
        entries := VavConfig(ahuId, ahu, vavs, i, t1, entries);
        i := i + 1;
      }
      assert vavs[..i] == vavs;
    }

    /** One VAV of the loop of `generate_ahu_configs`: its entry is appended
        if its config is present. */
    method VavConfig(ahuId: string, ahu: string, vavs: seq<string>, i: nat, ghost t1: Table, before: seq<DriverEntry>)
      returns (after: seq<DriverEntry>)
      requires ValidSetup(setup) && i < |vavs|
      requires before == VavEntries(setup, ahuId, ahu, vavs[..i])
      requires unmapped == VavsTable(setup, t1, vavs[..i])
      modifies this
      ensures after == VavEntries(setup, ahuId, ahu, vavs[..i + 1])
      ensures unmapped == VavsTable(setup, t1, vavs[..i + 1])
    {
      var vav := NameFromId(vavs[i]);
      var topic := VavTopic(setup.prefix, ahuId, ahu, vav);
      var c := GenerateConfigFromTemplate(vavs[i], "vav");
      after := before;
      if c.Some? && Truthy(c.value) {
        after := after + [DriverEntry(topic, c.value)];
      }
      VavEntriesSnoc(setup, ahuId, ahu, vavs, i);
      VavsTableStep(setup, t1, vavs, i);
    }

    /** One AHU of the loop of `generate_configs`: what it writes. */
    method GenerateAhuOutput(group: (string, seq<string>)) returns (o: Output)
      requires ValidSetup(setup)
      modifies this
      ensures o == AhuOutput(setup, group)
      ensures unmapped == AhuTable(setup, old(unmapped), group.0, group.1)
    {
      var ahuName, entries := GenerateAhuConfigs(group.0, group.1);
      o := Output(OutFileFor(ahuName), entries);
    }

    /** `generate_configs`: the outputs written and the exit status. */
    method GenerateConfigs() returns (outputs: seq<Output>, status: int)
      requires ValidSetup(setup)
      modifies this
      ensures exists groups :: (AhuAndVavs(setup, groups) && outputs == Outputs(setup, groups) &&
        unmapped == OutputsTable(setup, Overwrite(old(unmapped), setup.orphanVavs, NoAhuRefRecord()), groups))
      ensures status == ExitStatus(unmapped)
    {
      var groups := GetAhuAndVavs();
      ghost var t0 := unmapped;
      outputs := [];
      var i := 0;
      while i < |groups|
        invariant 0 <= i <= |groups|
        invariant outputs == Outputs(setup, groups[..i])
        invariant unmapped == OutputsTable(setup, t0, groups[..i])
      {
        var o := GenerateAhuOutput(groups[i]);
        OutputsSnoc(setup, groups, i);
        OutputsTableStep(setup, t0, groups, i);
        outputs := outputs + [o];
        i := i + 1;
      }
      assert groups[..i] == groups;
      status := ExitStatus(unmapped);
    }
  }
}
