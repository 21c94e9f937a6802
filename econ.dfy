/** The airside economizer base (`AirsideEconomizerConfigGenerator`), which
    both metadata back-ends extend: every key of `point_meta_map` is a
    mandatory AHU point. A meta value is one string or a list of candidate
    strings. The config of an AHU is a copy of the template with an empty
    `subdevices` unit and every point name found written into
    `arguments.point_mapping`. An AHU missing a point gets no config, and an
    `"ahu"` record lists the keys it is missing. */
module Econ {
  import opened Wrappers
  import opened Json
  import opened Names
  import opened ODicts
  import opened Collapse
  import opened Drivers
  import opened Rcx

  /** A `point_meta_map` value: one meta value, or candidates in order. */
  datatype MetaValue = Single(t: string) | Several(ts: seq<string>)

  /** `point_meta_map`, in key order. */
  type MetaMap = ODict<MetaValue>

  /** The candidate list of a point key: a string becomes a one-element
      list, and a list is used as it is. */
  function Candidates(v: MetaValue): (cs: seq<string>)
    ensures v.Single? ==> cs == [v.t]
    ensures v.Several? ==> cs == v.ts
  {
    match v
    case Single(t) => [t]
    case Several(ts) => ts
  }

  /** The meta values of interest, the flattening of `point_meta_map`'s
      values in order. */
  function Flattened(m: MetaMap): seq<string>
    decreases |m|
  {
    if m == [] then [] else Flattened(m[..|m| - 1]) + Candidates(m[|m| - 1].1)
  }

  /** A meta value is of interest exactly when it is a candidate of some
      point key. */
  lemma {:induction false} FlattenedSpec(m: MetaMap, x: string)
    ensures x in Flattened(m) <==> exists i :: 0 <= i < |m| && x in Candidates(m[i].1)
    decreases |m|
  {
    if m != [] {
      var n := |m| - 1;
      FlattenedSpec(m[..n], x);
      if x in Flattened(m[..n]) {
        var i :| 0 <= i < n && x in Candidates(m[..n][i].1);
        assert m[i] == m[..n][i];
      }
      if exists i :: 0 <= i < |m| && x in Candidates(m[i].1) {
        var i :| 0 <= i < |m| && x in Candidates(m[i].1);
        if i < n {
          assert m[..n][i] == m[i];
        }
      }
    }
  }

  /** With unique keys, `point_meta_map[key]` is the value of the key's entry. */
  lemma {:induction false} GetEntry(m: MetaMap, i: nat)
    requires UniqueKeys(m) && i < |m|
    ensures Get(m, m[i].0) == Some(m[i].1)
    decreases i
  {
    if i > 0 {
      assert UniqueKeys(m[1..]) by {
        forall a, b | 0 <= a < b < |m[1..]| ensures m[1..][a].0 != m[1..][b].0 {
          assert m[1..][a] == m[a + 1] && m[1..][b] == m[b + 1];
        }
      }
      assert m[1..][i - 1] == m[i];
      GetEntry(m[1..], i - 1);
    }
  }

  // ----- generate_ahu_configs -----

  /** The keys whose point name is empty, in key order (`missing_points`). */
  function Missing(keys: seq<string>, names: seq<string>): seq<string>
    requires |names| == |keys|
    decreases |keys|
  {
    if keys == [] then []
    else
      var n := |keys| - 1;
      Missing(keys[..n], names[..n]) + (if names[n] == "" then [keys[n]] else [])
  }

  /** The point names found, under their keys. */
  function Found(keys: seq<string>, names: seq<string>): map<string, Json>
    requires |names| == |keys|
    decreases |keys|
  {
    if keys == [] then map[]
    else
      var n := |keys| - 1;
      var f := Found(keys[..n], names[..n]);
      if names[n] != "" then f[keys[n] := JStr(names[n])] else f
  }

  /** A key is missing exactly when its name is empty; the missing keys
      keep their order and, for distinct keys, are distinct. None is
      missing exactly when every name is non-empty. */
  lemma MissingSpec(keys: seq<string>, names: seq<string>)
    requires |names| == |keys|
    ensures forall k :: k in Missing(keys, names) <==> exists i :: 0 <= i < |keys| && keys[i] == k && names[i] == ""
    ensures Missing(keys, names) == [] <==> forall i :: 0 <= i < |keys| ==> names[i] != ""
    ensures Distinct(keys) ==> Distinct(Missing(keys, names))
  {
    MissingMembers(keys, names);
    MissingNone(keys, names);
    if Distinct(keys) {
      MissingDistinct(keys, names);
    }
  }

  lemma {:induction false} MissingMembers(keys: seq<string>, names: seq<string>)
    requires |names| == |keys|
    ensures forall k :: k in Missing(keys, names) <==> exists i :: 0 <= i < |keys| && keys[i] == k && names[i] == ""
    decreases |keys|
  {
    if keys != [] {
      var n := |keys| - 1;
      MissingMembers(keys[..n], names[..n]);
      var p := Missing(keys[..n], names[..n]);
      assert Missing(keys, names) == p + (if names[n] == "" then [keys[n]] else []);
      forall k
        ensures k in Missing(keys, names) <==> exists i :: 0 <= i < |keys| && keys[i] == k && names[i] == ""
      {
        if k in p {
          var i :| 0 <= i < n && keys[..n][i] == k && names[..n][i] == "";
          assert keys[i] == k && names[i] == "";
        }
        if exists i :: 0 <= i < |keys| && keys[i] == k && names[i] == "" {
          var i :| 0 <= i < |keys| && keys[i] == k && names[i] == "";
          if i < n {
            assert keys[..n][i] == k && names[..n][i] == "";
          }
        }
      }
    }
  }

  lemma {:induction false} MissingNone(keys: seq<string>, names: seq<string>)
    requires |names| == |keys|
    ensures Missing(keys, names) == [] <==> forall i :: 0 <= i < |keys| ==> names[i] != ""
    decreases |keys|
  {
    if keys != [] {
      var n := |keys| - 1;
      MissingNone(keys[..n], names[..n]);
      assert forall i :: 0 <= i < n ==> names[..n][i] == names[i];
    }
  }

  lemma {:induction false} MissingDistinct(keys: seq<string>, names: seq<string>)
    requires |names| == |keys| && Distinct(keys)
    ensures Distinct(Missing(keys, names))
    decreases |keys|
  {
    if keys != [] {
      var n := |keys| - 1;
      assert Distinct(keys[..n]);
      MissingDistinct(keys[..n], names[..n]);
      MissingMembers(keys[..n], names[..n]);
      var p := Missing(keys[..n], names[..n]);
      if names[n] == "" {
        assert keys[n] !in p;
        assert Missing(keys, names) == p + [keys[n]];
      }
    }
  }

  /** The found names are exactly the non-empty ones: for distinct keys,
      every key with a name holds that name, and no other key is present. */
  lemma FoundSpec(keys: seq<string>, names: seq<string>)
    requires |names| == |keys| && Distinct(keys)
    ensures forall i :: 0 <= i < |keys| && names[i] != "" ==> keys[i] in Found(keys, names) && Found(keys, names)[keys[i]] == JStr(names[i])
    ensures forall k :: k in Found(keys, names) <==> exists i :: 0 <= i < |keys| && keys[i] == k && names[i] != ""
  {
    FoundValues(keys, names);
    FoundKeys(keys, names);
  }

  lemma {:induction false} FoundValues(keys: seq<string>, names: seq<string>)
    requires |names| == |keys| && Distinct(keys)
    ensures forall i :: 0 <= i < |keys| && names[i] != "" ==> keys[i] in Found(keys, names) && Found(keys, names)[keys[i]] == JStr(names[i])
    decreases |keys|
  {
    if keys != [] {
      var n := |keys| - 1;
      assert Distinct(keys[..n]);
      FoundValues(keys[..n], names[..n]);
      forall i | 0 <= i < n && names[i] != ""
        ensures keys[i] in Found(keys, names) && Found(keys, names)[keys[i]] == JStr(names[i])
      {
        assert keys[..n][i] == keys[i] && names[..n][i] == names[i];
      }
    }
  }

  lemma {:induction false} FoundKeys(keys: seq<string>, names: seq<string>)
    requires |names| == |keys|
    ensures forall k :: k in Found(keys, names) <==> exists i :: 0 <= i < |keys| && keys[i] == k && names[i] != ""
    decreases |keys|
  {
    if keys != [] {
      var n := |keys| - 1;
      FoundKeys(keys[..n], names[..n]);
      forall k
        ensures k in Found(keys, names) <==> exists i :: 0 <= i < |keys| && keys[i] == k && names[i] != ""
      {
        if k in Found(keys[..n], names[..n]) {
          var i :| 0 <= i < n && keys[..n][i] == k && names[..n][i] != "";
          assert keys[i] == k && names[i] != "";
        }
        if exists i :: 0 <= i < |keys| && keys[i] == k && names[i] != "" {
          var i :| 0 <= i < |keys| && keys[i] == k && names[i] != "";
          if i < n {
            assert keys[..n][i] == k && names[..n][i] != "";
          }
        }
      }
    }
  }

  lemma MissingSnoc(keys: seq<string>, names: seq<string>, k: string, name: string)
    requires |names| == |keys|
    ensures Missing(keys + [k], names + [name]) == Missing(keys, names) + (if name == "" then [k] else [])
    ensures Found(keys + [k], names + [name]) ==
      (var f := Found(keys, names); if name != "" then f[k := JStr(name)] else f)
  {
    assert (keys + [k])[..|keys|] == keys && (names + [name])[..|names|] == names;
  }

  /** The template's copy for one AHU before any point is written:
      `device.unit = {ahu: {"subdevices": []}}`. */
  function Blank(t: Json, ahu: string): Json
    requires RcxTemplate(t)
  {
    Assemble(t, ahu, [], map[])
  }

  /** `point_mapping[key] = name` on a config. */
  function SetPoint(c: Json, key: string, name: string): Json
    requires RcxTemplate(c)
  {
    var args := c.fields["arguments"].fields;
    var pm := args["point_mapping"].fields;
    JObj(c.fields["arguments" := JObj(args["point_mapping" := JObj(pm[key := JStr(name)])])])
  }

  /** Writing one more point into an assembled config is assembling with
      that point added. */
  lemma SetPointAssemble(t: Json, ahu: string, m: map<string, Json>, key: string, name: string)
    requires RcxTemplate(t)
    ensures RcxTemplate(Assemble(t, ahu, [], m))
    ensures SetPoint(Assemble(t, ahu, [], m), key, name) == Assemble(t, ahu, [], m[key := JStr(name)])
  {
    var c := Assemble(t, ahu, [], m);
    var dev := t.fields["device"].fields;
    var args := t.fields["arguments"].fields;
    var pm := args["point_mapping"].fields;
    var d := JObj(dev["unit" := JObj(map[ahu := JObj(map["subdevices" := JArr(StrItems([]))])])]);
    var m2 := m[key := JStr(name)];
    assert c.fields == t.fields["device" := d]["arguments" := JObj(args["point_mapping" := JObj(pm + m)])];
    assert (pm + m)[key := JStr(name)] == pm + m2;
    assert args["point_mapping" := JObj(pm + m)]["point_mapping" := JObj(pm + m2)] == args["point_mapping" := JObj(pm + m2)];
    assert c.fields["arguments" := JObj(args["point_mapping" := JObj(pm + m2)])] ==
      t.fields["device" := d]["arguments" := JObj(args["point_mapping" := JObj(pm + m2)])];
  }

  /** One key of the point loop: a non-empty name is written into the
      config so far, an empty one joins the missing keys. */
  lemma ConfigStep(t: Json, ahu: string, keys: seq<string>, names: seq<string>, i: nat, name: string)
    requires RcxTemplate(t) && i < |keys| && |names| == i
    ensures RcxTemplate(Assemble(t, ahu, [], Found(keys[..i], names)))
    ensures Missing(keys[..i + 1], names + [name]) == Missing(keys[..i], names) + (if name == "" then [keys[i]] else [])
    ensures Assemble(t, ahu, [], Found(keys[..i + 1], names + [name])) ==
      if name != "" then SetPoint(Assemble(t, ahu, [], Found(keys[..i], names)), keys[i], name)
      else Assemble(t, ahu, [], Found(keys[..i], names))
  {
    assert keys[..i + 1] == keys[..i] + [keys[i]];
    MissingSnoc(keys[..i], names, keys[i], name);
    SetPointAssemble(t, ahu, Found(keys[..i], names), keys[i], name);
  }

  /** The config of an AHU with all its points: the template with the empty
      unit and the names found. */
  function AhuConfig(t: Json, ahuId: string, keys: seq<string>, names: seq<string>): Json
    requires RcxTemplate(t) && |names| == |keys|
  {
    Assemble(t, NameFromId(ahuId), [], Found(keys, names))
  }

  /** The config is a truthy template copy whose unit is exactly the AHU
      with no subdevices, every key with a name holds it, and every other
      point keeps the template's value; with no key missing, every key is
      mapped to a non-empty name. */
  lemma AhuConfigSpec(t: Json, ahuId: string, keys: seq<string>, names: seq<string>)
    requires RcxTemplate(t) && |names| == |keys| && Distinct(keys)
    ensures var c := AhuConfig(t, ahuId, keys, names);
      RcxTemplate(c) && Truthy(c) &&
      UnitOf(c) == JObj(map[NameFromId(ahuId) := JObj(map["subdevices" := JArr([])])]) &&
      (forall i :: 0 <= i < |keys| && names[i] != "" ==> Mapped(c, keys[i]) == JStr(names[i])) &&
      (forall k :: k !in keys ==> Mapped(c, k) == Mapped(t, k)) &&
      (Missing(keys, names) == [] ==> forall i :: 0 <= i < |keys| ==> names[i] != "" && Mapped(c, keys[i]) == JStr(names[i]))
  {
    var c := AhuConfig(t, ahuId, keys, names);
    AssembleSpec(t, NameFromId(ahuId), [], Found(keys, names));
    FoundSpec(keys, names);
    MissingSpec(keys, names);
    assert StrItems([]) == [];
    assert "device" in c.fields;
  }

  /** `"Unable to find points of type(s): [...]"` */
  function MissingMsg(missing: seq<string>): string {
    "Unable to find points of type(s): " + ReprList(missing)
  }

  /** `equip_id_point_topic_map.get(ahu_id)` as written to the record. */
  function TopicsOf(topicMap: map<string, map<string, string>>, e: string): Json {
    if e in topicMap then StrMap(topicMap[e]) else JNull
  }

  /** What `generate_ahu_configs` returns besides the AHU's short name, and
      the unmapped table it leaves, once the point names of the keys are
      known: no config and an `"ahu"` record when a key is missing, the
      config otherwise. */
  function Outcome(t: Json, ahuId: string, keys: seq<string>, names: seq<string>,
                   topicMap: map<string, map<string, string>>, unmapped: Table): (Option<Json>, Table)
    requires RcxTemplate(t) && |names| == |keys|
  {
    var missing := Missing(keys, names);
    if missing != [] then (None, unmapped[ahuId := TopicRecord("ahu", MissingMsg(missing), TopicsOf(topicMap, ahuId))])
    else (Some(AhuConfig(t, ahuId, keys, names)), unmapped)
  }

  /** There is a config exactly when no key is missing, and then the table
      is unchanged. Otherwise only the AHU's record changes, and it lists
      the missing keys with the AHU's topics. */
  lemma OutcomeSpec(t: Json, ahuId: string, keys: seq<string>, names: seq<string>,
                    topicMap: map<string, map<string, string>>, unmapped: Table)
    requires RcxTemplate(t) && |names| == |keys|
    ensures var (c, u) := Outcome(t, ahuId, keys, names, topicMap, unmapped);
      (c.Some? <==> forall i :: 0 <= i < |keys| ==> names[i] != "") &&
      (c.Some? ==> c.value == AhuConfig(t, ahuId, keys, names) && u == unmapped) &&
      (c.None? ==> (u.Keys == unmapped.Keys + {ahuId} && (forall k :: k in unmapped && k != ahuId ==> u[k] == unmapped[k]) &&
        u[ahuId]["type"] == JStr("ahu") && u[ahuId]["topic_name"] == TopicsOf(topicMap, ahuId) &&
        u[ahuId]["error"] == JStr(MissingMsg(Missing(keys, names))) &&
        (forall k :: k in Missing(keys, names) <==> exists i :: 0 <= i < |keys| && keys[i] == k && names[i] == "")))
  {
    MissingMembers(keys, names);
    MissingNone(keys, names);
  }

  // ----- generate_configs -----

  /** An element of the `get_ahus` result: a string id (the JSON back-end)
      or a result row of the database (its columns). */
  datatype AhuElem = IdElem(id: string) | RowElem(cols: seq<string>)

  /** The AHU id of an element: the string itself, or the row's first column. */
  function AhuIdOf(a: AhuElem): (r: Result<string>)
    ensures a.IdElem? ==> r == Ok(a.id)
    ensures a.RowElem? ==> (r.Ok? <==> a.cols != []) && (r.Ok? ==> r.value == a.cols[0])
  {
    match a
    case IdElem(id) => Ok(id)
    case RowElem(cols) => if cols == [] then Err(IndexErrorMsg) else Ok(cols[0])
  }

  /** The files `generate_configs` writes, in order: `<ahu>.json` for every
      truthy config. */
  function Files(outs: seq<(string, Option<Json>)>): seq<(string, Json)>
    decreases |outs|
  {
    if outs == [] then []
    else
      var n := |outs| - 1;
      var o := outs[n];
      Files(outs[..n]) + (if o.1.Some? && Truthy(o.1.value) then [(o.0, o.1.value)] else [])
  }

  /** Every file comes from an output with a truthy config, and every such
      output gives a file. */
  lemma {:induction false} FilesSpec(outs: seq<(string, Option<Json>)>)
    ensures forall f :: f in Files(outs) <==> exists i :: 0 <= i < |outs| && outs[i].1 == Some(f.1) && outs[i].0 == f.0 && Truthy(f.1)
    decreases |outs|
  {
    if outs != [] {
      var n := |outs| - 1;
      FilesSpec(outs[..n]);
      forall f
        ensures f in Files(outs) <==> exists i :: 0 <= i < |outs| && outs[i].1 == Some(f.1) && outs[i].0 == f.0 && Truthy(f.1)
      {
        if f in Files(outs[..n]) {
          var i :| 0 <= i < n && outs[..n][i].1 == Some(f.1) && outs[..n][i].0 == f.0 && Truthy(f.1);
          assert outs[i] == outs[..n][i];
        }
        if exists i :: 0 <= i < |outs| && outs[i].1 == Some(f.1) && outs[i].0 == f.0 && Truthy(f.1) {
          var i :| 0 <= i < |outs| && outs[i].1 == Some(f.1) && outs[i].0 == f.0 && Truthy(f.1);
          if i < n {
            assert outs[..n][i] == outs[i];
          }
        }
      }
    }
  }

  lemma FilesSnoc(outs: seq<(string, Option<Json>)>, o: (string, Option<Json>))
    ensures Files(outs + [o]) == Files(outs) + (if o.1.Some? && Truthy(o.1.value) then [(o.0, o.1.value)] else [])
  {
    assert (outs + [o])[..|outs|] == outs;
  }
}
