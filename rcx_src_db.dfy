/** The src airside RCx generator over the Postgres tag tables
    (`IntellimationAirsideRCxConfigGenerator`) with the `generate_configs`
    loop of its base. It keeps no state of its own. `get_ahu_and_vavs`
    returns the AHU → VAV topics query result as it is; each point name is
    looked up by a query for the equipment and meta value, whose first row's
    topic is used, or `""` without rows. Every VAV's name is added to its
    role's set, even an empty one, and the sets are collapsed by `pop`,
    which fails for an AHU without VAVs. */
module RcxSrcDb {
  import opened Wrappers
  import opened Json
  import opened Names
  import opened Drivers
  import opened Rows
  import opened ODicts
  import opened Collapse
  import opened Rcx
  import RcxCg

  /** The template with its `device` set, `point_meta_map`,
      `point_meta_field`, the result of the AHU → VAVs query, and the point
      table in the order the database returns its rows. */
  datatype DbSetup = DbSetup(
    template: Json,
    metaMap: map<string, string>,
    metaField: string,
    groups: seq<(string, seq<string>)>,
    pointRows: seq<PointRow>)

  // ----- get_topic_by_point_type -----

  /** `get_topic_by_point_type`: the first row's topic, `""` without rows;
      a `KeyError` for a point key missing from `point_meta_map`. */
  function TopicByPointType(s: DbSetup, e: string, key: string): Result<string> {
    if key !in s.metaMap then Err(KeyErrorMsg(key))
    else
      var ts := TopicQuery(s.pointRows, s.metaField, e, s.metaMap[key]);
      Ok(if ts == [] then "" else ts[0])
  }

  /** The lookup fails exactly for a key without a meta value; it is `""`
      when no row matches, and otherwise the topic of the first matching
      row (which may itself be `""`). */
  lemma TopicByPointTypeSpec(s: DbSetup, e: string, key: string)
    ensures TopicByPointType(s, e, key).Ok? <==> key in s.metaMap
    ensures key in s.metaMap && (forall i :: 0 <= i < |s.pointRows| ==> !Matches(s.pointRows[i], s.metaField, e, s.metaMap[key])) ==>
      TopicByPointType(s, e, key) == Ok("")
    ensures forall i :: 0 <= i < |s.pointRows| && key in s.metaMap && Matches(s.pointRows[i], s.metaField, e, s.metaMap[key]) &&
                        (forall j :: 0 <= j < i ==> !Matches(s.pointRows[j], s.metaField, e, s.metaMap[key])) ==>
      TopicByPointType(s, e, key) == Ok(s.pointRows[i].topic)
  {
    if key in s.metaMap {
      TopicQueryFirst(s.pointRows, s.metaField, e, s.metaMap[key]);
    }
  }

  /** The point name of an equipment's key: the name part of the topic,
      `""` for an empty topic. */
  function KeyName(s: DbSetup, e: string, key: string): Result<string> {
    var t :- TopicByPointType(s, e, key);
    Ok(PointNameFromTopic(t))
  }

  // ----- generate_ahu_configs -----

  /** The names of some keys of one equipment, in key order, up to the
      first key missing from `point_meta_map`. */
  function KeyNames(s: DbSetup, e: string, keys: seq<string>): Result<seq<string>>
    decreases |keys|
  {
    if keys == [] then Ok([])
    else
      var n := |keys| - 1;
      var p :- KeyNames(s, e, keys[..n]);
      var x :- KeyName(s, e, keys[n]);
      Ok(p + [x])
  }

  /** The names fail exactly when some key has no meta value; the i-th is
      the name of the i-th key. */
  lemma {:induction false} KeyNamesSpec(s: DbSetup, e: string, keys: seq<string>)
    ensures KeyNames(s, e, keys).Ok? <==> forall i :: 0 <= i < |keys| ==> keys[i] in s.metaMap
    ensures KeyNames(s, e, keys).Ok? ==> var r := KeyNames(s, e, keys).value;
      |r| == |keys| && forall i :: 0 <= i < |keys| ==> Ok(r[i]) == KeyName(s, e, keys[i])
    decreases |keys|
  {
    if keys != [] {
      var n := |keys| - 1;
      KeyNamesSpec(s, e, keys[..n]);
      assert forall i :: 0 <= i < n ==> keys[..n][i] == keys[i];
    }
  }

  lemma KeyNamesStep(s: DbSetup, e: string, keys: seq<string>, i: nat)
    requires i < |keys| && KeyNames(s, e, keys[..i]).Ok?
    ensures var x := KeyName(s, e, keys[i]);
      KeyNames(s, e, keys[..i + 1]) == if x.Err? then Err(x.msg) else Ok(KeyNames(s, e, keys[..i]).value + [x.value])
  {
    assert keys[..i + 1][..i] == keys[..i];
  }

  lemma {:induction false} KeyNamesPrefixErr(s: DbSetup, e: string, keys: seq<string>, k: nat)
    requires k <= |keys| && KeyNames(s, e, keys[..k]).Err?
    ensures KeyNames(s, e, keys).Err?
    decreases |keys| - k
  {
    if k < |keys| {
      assert keys[..k + 1][..k] == keys[..k];
      KeyNamesPrefixErr(s, e, keys, k + 1);
    } else {
      assert keys[..k] == keys;
    }
  }

  /** The VAV loop: each VAV's two role names added to the role's set,
      empty names included. */
  function DbSets(s: DbSetup, vavs: seq<string>): Result<map<string, set<string>>>
    decreases |vavs|
  {
    if vavs == [] then Ok(map[])
    else
      var n := |vavs| - 1;
      var p :- DbSets(s, vavs[..n]);
      var reheat :- KeyName(s, vavs[n], "zone_reheat");
      var damper :- KeyName(s, vavs[n], "zone_damper");
      Ok(AddTo(AddTo(p, "zone_reheat", reheat), "zone_damper", damper))
  }

  /** A role's set holds exactly the names of the role on the VAVs. */
  ghost predicate AllNames(s: DbSetup, vavs: seq<string>, key: string, xs: set<string>) {
    NamesOf(KeyResults(s, vavs, key), xs)
  }

  /** The lookups of one key on each VAV, in order. */
  function KeyResults(s: DbSetup, vavs: seq<string>, key: string): (rs: seq<Result<string>>)
    ensures |rs| == |vavs| && forall i :: 0 <= i < |vavs| ==> rs[i] == KeyName(s, vavs[i], key)
  {
    seq(|vavs|, i requires 0 <= i < |vavs| => KeyName(s, vavs[i], key))
  }

  /** `xs` holds exactly the names some lookup of `rs` found. */
  ghost predicate NamesOf(rs: seq<Result<string>>, xs: set<string>) {
    forall x :: x in xs <==> exists i :: 0 <= i < |rs| && rs[i] == Ok(x)
  }

  /** Both VAV keys have meta values. */
  predicate VavKeysMapped(s: DbSetup) {
    "zone_reheat" in s.metaMap && "zone_damper" in s.metaMap
  }

  /** The loop fails exactly when there is a VAV and a VAV key has no meta
      value; each role's set then holds exactly that role's names on the
      VAVs, and is empty exactly when there are no VAVs. */
  lemma {:induction false} DbSetsSpec(s: DbSetup, vavs: seq<string>)
    ensures DbSets(s, vavs).Ok? <==> vavs == [] || VavKeysMapped(s)
    ensures DbSets(s, vavs).Ok? ==> var sets := DbSets(s, vavs).value;
      AllNames(s, vavs, "zone_reheat", SetOf(sets, "zone_reheat")) &&
      AllNames(s, vavs, "zone_damper", SetOf(sets, "zone_damper")) &&
      (SetOf(sets, "zone_reheat") == {} <==> vavs == []) && (SetOf(sets, "zone_damper") == {} <==> vavs == [])
    decreases |vavs|
  {
    if vavs == [] {
      assert SetOf(map[], "zone_reheat") == {} && SetOf(map[], "zone_damper") == {};
    } else {
      var n := |vavs| - 1;
      DbSetsSpec(s, vavs[..n]);
      if DbSets(s, vavs).Ok? {
        var p := DbSets(s, vavs[..n]).value;
        DbSetsRole(s, vavs, "zone_reheat", "zone_reheat", "zone_damper", p);
        DbSetsRole(s, vavs, "zone_damper", "zone_reheat", "zone_damper", p);
      }
    }
  }

  /** One more VAV adds its role's name to the role's set. */
  lemma DbSetsRole(s: DbSetup, vavs: seq<string>, key: string, rk: string, dk: string, p: map<string, set<string>>)
    requires vavs != [] && rk == "zone_reheat" && dk == "zone_damper" && (key == rk || key == dk)
    requires DbSets(s, vavs).Ok? && DbSets(s, vavs[..|vavs| - 1]) == Ok(p)
    requires AllNames(s, vavs[..|vavs| - 1], key, SetOf(p, key))
    ensures AllNames(s, vavs, key, SetOf(DbSets(s, vavs).value, key))
  {
    var v := vavs[|vavs| - 1];
    var sets := AddTo(AddTo(p, rk, KeyName(s, v, rk).value), dk, KeyName(s, v, dk).value);
    assert DbSets(s, vavs) == Ok(sets);
    assert SetOf(sets, key) == SetOf(p, key) + {KeyName(s, v, key).value};
    AllNamesSnoc(s, vavs, key, SetOf(p, key));
  }

  lemma AllNamesSnoc(s: DbSetup, vavs: seq<string>, key: string, xs: set<string>)
    requires vavs != [] && KeyName(s, vavs[|vavs| - 1], key).Ok? && AllNames(s, vavs[..|vavs| - 1], key, xs)
    ensures AllNames(s, vavs, key, xs + {KeyName(s, vavs[|vavs| - 1], key).value})
  {
    var n := |vavs| - 1;
    var r := KeyName(s, vavs[n], key);
    assert KeyResults(s, vavs, key) == KeyResults(s, vavs[..n], key) + [r];
    NamesOfSnoc(KeyResults(s, vavs[..n], key), r, xs);
  }

  lemma NamesOfSnoc(rs: seq<Result<string>>, r: Result<string>, xs: set<string>)
    requires r.Ok? && NamesOf(rs, xs)
    ensures NamesOf(rs + [r], xs + {r.value})
  {
    var n := |rs|;
    forall y
      ensures y in xs + {r.value} <==> exists i :: 0 <= i < n + 1 && (rs + [r])[i] == Ok(y)
    {
      if exists i :: 0 <= i < n + 1 && (rs + [r])[i] == Ok(y) {
        var i :| 0 <= i < n + 1 && (rs + [r])[i] == Ok(y);
        if i < n {
          assert rs[i] == Ok(y);
        }
      }
      if y in xs {
        var i :| 0 <= i < n && rs[i] == Ok(y);
        assert (rs + [r])[i] == Ok(y);
      }
      if y == r.value {
        assert (rs + [r])[n] == Ok(y);
      }
    }
  }

  lemma DbSetsStep(s: DbSetup, vavs: seq<string>, i: nat)
    requires i < |vavs| && DbSets(s, vavs[..i]).Ok?
    ensures var v := vavs[i]; var p := DbSets(s, vavs[..i]).value;
      var reheat := KeyName(s, v, "zone_reheat"); var damper := KeyName(s, v, "zone_damper");
      DbSets(s, vavs[..i + 1]) ==
        if reheat.Err? then Err(reheat.msg)
        else if damper.Err? then Err(damper.msg)
        else Ok(AddTo(AddTo(p, "zone_reheat", reheat.value), "zone_damper", damper.value))
  {
    assert vavs[..i + 1][..i] == vavs[..i];
  }

  lemma {:induction false} DbSetsPrefixErr(s: DbSetup, vavs: seq<string>, k: nat)
    requires k <= |vavs| && DbSets(s, vavs[..k]).Err?
    ensures DbSets(s, vavs).Err?
    decreases |vavs| - k
  {
    if k < |vavs| {
      assert vavs[..k + 1][..k] == vavs[..k];
      DbSetsPrefixErr(s, vavs, k + 1);
    } else {
      assert vavs[..k] == vavs;
    }
  }

  /** The AHU name, its six point names, and the VAV role sets its config is
      built from. */
  datatype Plan = Plan(ahu: string, names: seq<string>, sets: map<string, set<string>>)

  const PopMsg := "KeyError: 'pop from an empty set'"

  function AhuPlan(s: DbSetup, ahuId: string, vavs: seq<string>): Result<Plan> {
    if !RcxTemplate(s.template) then Err(TemplateErrorMsg)
    else
      var names :- KeyNames(s, ahuId, AhuKeys);
      var sets :- DbSets(s, vavs);
      if SetOf(sets, "zone_reheat") == {} || SetOf(sets, "zone_damper") == {} then Err(PopMsg)
      else Ok(Plan(NameFromId(ahuId), names, sets))
  }

  /** The call fails exactly when the template has no point mapping, an AHU
      key or (with VAVs) a VAV key has no meta value, or there are no VAVs.
      Otherwise the plan holds the AHU's short name, the names of its six
      keys in order, and per VAV role exactly the names found on the VAVs,
      empty ones included. */
  lemma AhuPlanSpec(s: DbSetup, ahuId: string, vavs: seq<string>)
    ensures AhuPlan(s, ahuId, vavs).Err? <==>
      !RcxTemplate(s.template) || (exists i :: 0 <= i < |AhuKeys| && AhuKeys[i] !in s.metaMap) ||
      vavs == [] || !VavKeysMapped(s)
    ensures AhuPlan(s, ahuId, vavs).Ok? ==> var p := AhuPlan(s, ahuId, vavs).value;
      p.ahu == NameFromId(ahuId) && |p.names| == |AhuKeys| &&
      (forall i :: 0 <= i < |AhuKeys| ==> Ok(p.names[i]) == KeyName(s, ahuId, AhuKeys[i])) &&
      AllNames(s, vavs, "zone_reheat", SetOf(p.sets, "zone_reheat")) &&
      AllNames(s, vavs, "zone_damper", SetOf(p.sets, "zone_damper"))
  {
    KeyNamesSpec(s, ahuId, AhuKeys);
    DbSetsSpec(s, vavs);
  }

  /** What `generate_ahu_configs` returns for a plan: the AHU name and a
      config realising it. */
  predicate Returns(s: DbSetup, p: Plan, vavs: seq<string>, out: (string, Json)) {
    out.0 == p.ahu && RcxTemplate(s.template) && |p.names| == |AhuKeys| &&
    Realises(out.1, s.template, p.ahu, vavs, p.names, p.sets)
  }

  /** `generate_ahu_configs`, filling the point mapping one key and one VAV
      at a time. */
  method GenerateAhuConfigs(s: DbSetup, ahuId: string, vavs: seq<string>) returns (r: Result<(string, Json)>)
    ensures var e := AhuPlan(s, ahuId, vavs);
      (r.Ok? <==> e.Ok?) && (r.Ok? ==> Returns(s, e.value, vavs, r.value))
  {
    if !RcxTemplate(s.template) {
      return Err(TemplateErrorMsg);
    }
    var ahu := NameFromId(ahuId);
    var names: seq<string> := [];
    var i := 0;
    while i < |AhuKeys|
      invariant 0 <= i <= |AhuKeys|
      invariant KeyNames(s, ahuId, AhuKeys[..i]) == Ok(names)
    {
      KeyNamesStep(s, ahuId, AhuKeys, i);
      var name := KeyName(s, ahuId, AhuKeys[i]);
      if name.Err? {
        KeyNamesPrefixErr(s, ahuId, AhuKeys, i + 1);
        return Err(name.msg);
      }
      names := names + [name.value];
      i := i + 1;
    }
    assert AhuKeys[..i] == AhuKeys;
    KeyNamesSpec(s, ahuId, AhuKeys);
    var gathered := VavNames(s, vavs);
    if gathered.Err? {
      return Err(gathered.msg);
    }
    var (subs, sets) := gathered.value;
    var reheat := CollapseOrPop(SetOf(sets, "zone_reheat"));
    if reheat.Err? {
      return Err(reheat.msg);
    }
    var damper := CollapseOrPop(SetOf(sets, "zone_damper"));
    if damper.Err? {
      return Err(damper.msg);
    }
    RealisesIntro(s.template, ahu, vavs, names, sets, reheat.value, damper.value);
    r := Ok((ahu, Assemble(s.template, ahu, subs, VavMapping(AhuMapping(names), reheat.value, damper.value))));
  }

  /** The VAV loop of `generate_ahu_configs`: the subdevices and each
      role's names. */
  method VavNames(s: DbSetup, vavs: seq<string>) returns (r: Result<(seq<string>, map<string, set<string>>)>)
    ensures var e := DbSets(s, vavs);
      (r.Ok? <==> e.Ok?) && (r.Ok? ==> r.value == (SubDevices(vavs), e.value))
  {
    var subs: seq<string> := [];
    var sets: map<string, set<string>> := map[];
    var i := 0;
    while i < |vavs|
      invariant 0 <= i <= |vavs|
      invariant subs == SubDevices(vavs[..i]) && DbSets(s, vavs[..i]) == Ok(sets)
    {
      DbSetsStep(s, vavs, i);
      SubDevicesStep(vavs, i);
      subs := subs + [NameFromId(vavs[i])];
      var reheat := KeyName(s, vavs[i], "zone_reheat");
      if reheat.Err? {
        DbSetsPrefixErr(s, vavs, i + 1);
        return Err(reheat.msg);
      }
      var damper := KeyName(s, vavs[i], "zone_damper");
      if damper.Err? {
        DbSetsPrefixErr(s, vavs, i + 1);
        return Err(damper.msg);
      }
      sets := AddTo(AddTo(sets, "zone_reheat", reheat.value), "zone_damper", damper.value);
      i := i + 1;
    }
    assert vavs[..i] == vavs;
    r := Ok((subs, sets));
  }

  // ----- generate_configs (base) -----

  /** `outs` holds, in order, the output of each AHU of `groups`, each
      planned without error. */
  ghost predicate Outputs(s: DbSetup, groups: seq<(string, seq<string>)>, outs: seq<(string, Json)>) {
    |outs| == |groups| && forall j :: 0 <= j < |groups| ==> OutputOf(s, groups[j], outs[j])
  }

  /** `o` is the output of the AHU group `g`, planned without error. */
  ghost predicate OutputOf(s: DbSetup, g: (string, seq<string>), o: (string, Json)) {
    AhuPlan(s, g.0, g.1).Ok? && Returns(s, AhuPlan(s, g.0, g.1).value, g.1, o)
  }

  lemma OutputsStep(s: DbSetup, groups: seq<(string, seq<string>)>, i: nat, outs: seq<(string, Json)>, o: (string, Json))
    requires i < |groups| && Outputs(s, groups[..i], outs) && OutputOf(s, groups[i], o)
    ensures Outputs(s, groups[..i + 1], outs + [o])
  {
    forall j | 0 <= j < i + 1
      ensures OutputOf(s, groups[..i + 1][j], (outs + [o])[j])
    {
      if j < i {
        assert groups[..i + 1][j] == groups[..i][j] && (outs + [o])[j] == outs[j];
      } else {
        assert groups[..i + 1][j] == groups[i] && (outs + [o])[j] == o;
      }
    }
  }

  /** `generate_configs`: one `<ahu>.json` file per AHU of the query result,
      in order; it fails exactly when some AHU's plan fails. */
  method GenerateConfigs(s: DbSetup) returns (r: Result<seq<(string, Json)>>)
    ensures r.Ok? <==> forall i :: 0 <= i < |s.groups| ==> AhuPlan(s, s.groups[i].0, s.groups[i].1).Ok?
    ensures r.Ok? ==> Outputs(s, s.groups, r.value)
  {
    var groups := s.groups;
    var outs: seq<(string, Json)> := [];
    var i := 0;
    while i < |groups|
      invariant 0 <= i <= |groups|
      invariant Outputs(s, groups[..i], outs)
    {
      var out := GenerateAhuConfigs(s, groups[i].0, groups[i].1);
      if out.Err? {
        assert !AhuPlan(s, groups[i].0, groups[i].1).Ok?;
        return Err(out.msg);
      }
      OutputsStep(s, groups, i, outs, out.value);
      outs := outs + [out.value];
      i := i + 1;
    }
    assert groups[..i] == groups;
    assert Outputs(s, groups, outs);
    r := Ok(outs);
  }
}
