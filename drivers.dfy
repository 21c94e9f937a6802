/** What the driver generators share: the configuration template with its
    `driver_config.query`, the query substitution, the topic prefix set up in
    `__init__`, and the shapes of what a generator run produces. */
module Drivers {
  import opened Wrappers
  import opened Strs
  import opened Json
  import opened Names
  import opened Topics

  /** A `config_template` whose `driver_config.query` is a string: the
      generators index it without a check. */
  predicate DriverTemplate(t: Json) {
    t.JObj? && "driver_config" in t.fields &&
    t.fields["driver_config"].JObj? && "query" in t.fields["driver_config"].fields &&
    t.fields["driver_config"].fields["query"].JStr?
  }

  /** `template["driver_config"]["query"]` */
  function QueryOf(t: Json): string
    requires DriverTemplate(t)
  {
    t.fields["driver_config"].fields["query"].s
  }

  /** A deep copy of the template with `driver_config.query` set to `q`:
      only that one field differs from the template. */
  function WithQuery(t: Json, q: string): (r: Json)
    requires DriverTemplate(t)
    ensures DriverTemplate(r) && QueryOf(r) == q
  {
    var dc := t.fields["driver_config"];
    JObj(t.fields["driver_config" := JObj(dc.fields["query" := JStr(q)])])
  }

  /** Every other field of the copy, at both levels, is the template's. */
  lemma WithQueryFrame(t: Json, q: string)
    requires DriverTemplate(t)
    ensures var r := WithQuery(t, q);
      r.fields.Keys == t.fields.Keys &&
      (forall k :: k in t.fields && k != "driver_config" ==> r.fields[k] == t.fields[k]) &&
      r.fields["driver_config"].fields.Keys == t.fields["driver_config"].fields.Keys &&
      (forall k :: k in t.fields["driver_config"].fields && k != "query" ==>
        r.fields["driver_config"].fields[k] == t.fields["driver_config"].fields[k])
  {
  }

  /** Setting the query a template already has gives the template back. */
  lemma WithOwnQuery(t: Json)
    requires DriverTemplate(t)
    ensures WithQuery(t, QueryOf(t)) == t
  {
    var dc := t.fields["driver_config"];
    assert dc.fields["query" := JStr(QueryOf(t))] == dc.fields;
    assert t.fields["driver_config" := JObj(dc.fields)] == t.fields;
  }

  /** How `str.format` prints a keyword argument: `None` prints as `None`. */
  function PyStr(v: Option<string>): string {
    if v.Some? then v.value else "None"
  }

  /** The guard of `generate_config_from_template`: a `{device_id}` placeholder
      with no device id, or an `{obj_name}` placeholder with no object name. */
  predicate MissingPlaceholder(q: string, deviceId: Option<string>, objName: Option<string>) {
    (Contains(q, "{device_id}") && deviceId.None?) || (Contains(q, "{obj_name}") && objName.None?)
  }

  /** The substituted copy: `query.format(device_id=..., obj_name=...)`. When
      the guard lets an absent value through, its placeholder is not in the
      query and the copy keeps the template's query. */
  function Formatted(t: Json, deviceId: Option<string>, objName: Option<string>): (r: Json)
    requires DriverTemplate(t)
    ensures DriverTemplate(r)
  {
    WithQuery(t, FormatQuery(QueryOf(t), PyStr(deviceId), PyStr(objName)))
  }

  /** With both values the query is substituted; with neither, a query the
      guard lets through has no placeholder, and the copy is the template. */
  lemma FormattedSpec(t: Json, deviceId: Option<string>, objName: Option<string>)
    requires DriverTemplate(t)
    ensures deviceId.Some? && objName.Some? ==>
      QueryOf(Formatted(t, deviceId, objName)) == FormatQuery(QueryOf(t), deviceId.value, objName.value)
    ensures !MissingPlaceholder(QueryOf(t), deviceId, objName) && deviceId.None? && objName.None? ==>
      Formatted(t, deviceId, objName) == t
  {
    var q := QueryOf(t);
    if !MissingPlaceholder(q, deviceId, objName) && deviceId.None? && objName.None? {
      FormatQueryNoPlaceholder(q, "None", "None");
      WithOwnQuery(t);
    }
  }

  /** The topic prefix of a driver generator's `__init__` from `site_id`,
      `building`, `campus` and `topic_prefix` (empty when not configured);
      the error is the `IndexError` of a campus taken from a dotless site id. */
  function DriverSetup(siteId: string, building: string, campus: string, configured: string): (r: Result<string>)
    ensures r.Err? <==> campus == "" && siteId != "" && '.' !in siteId
    ensures r.Ok? ==> |r.value| > 0 && r.value[|r.value| - 1] == '/'
    ensures r.Ok? && configured != "" ==>
      r.value == (if configured[|configured| - 1] == '/' then configured else configured + "/")
  {
    DriverTopicPrefixSpec(configured, campus, building);
    match Location(siteId, building, campus)
    case Err(e) => Err(e)
    case Ok((b, c)) => (DriverTopicPrefixSpec(configured, c, b); Ok(DriverTopicPrefix(configured, c, b)))
  }

  /** A derived building and campus from a site id `a.b.site` give the
      prefix `devices/b/site/`. */
  lemma DriverSetupFromSite(siteId: string)
    requires '.' in siteId
    ensures DriverSetup(siteId, "", "", "").Ok?
    ensures var p := DriverSetup(siteId, "", "", "").value;
      var (b, c) := Location(siteId, "", "").value;
      (c != "" && b != "" && c[|c| - 1] != '/' && b[|b| - 1] != '/') ==> p == "devices/" + c + "/" + b + "/"
  {
    LocationFromSite(siteId);
    var (b, c) := Location(siteId, "", "").value;
    assert DriverSetup(siteId, "", "", "") == Ok(DriverTopicPrefix("", c, b));
    if c != "" && b != "" && b[|b| - 1] != '/' {
      DriverTopicPrefixBoth(c, b);
    }
  }

  /** One element of the `driver_vip` list: `{"config-name": topic,
      "config": config}`. */
  datatype DriverEntry = DriverEntry(configName: string, config: Json)

  /** `if driver_config:` on what `generate_config_from_template` returned. */
  predicate Present(c: Option<Json>) {
    c.Some? && Truthy(c.value)
  }

  /** How many of the configs are appended. */
  function CountPresent(cs: seq<Option<Json>>): nat
    decreases |cs|
  {
    if cs == [] then 0
    else CountPresent(cs[..|cs| - 1]) + (if Present(cs[|cs| - 1]) then 1 else 0)
  }

  lemma {:induction false} CountPresentAppend(a: seq<Option<Json>>, b: seq<Option<Json>>)
    ensures CountPresent(a + b) == CountPresent(a) + CountPresent(b)
    decreases |b|
  {
    if b == [] {
      assert a + b == a;
    } else {
      var n := |b| - 1;
      CountPresentAppend(a, b[..n]);
      assert (a + b)[..|a + b| - 1] == a + b[..n];
    }
  }

  /** The `driver_vip` list built by appending `{"config-name": names[i],
      "config": cs[i]}` for each present config, in order. */
  function Kept(names: seq<string>, cs: seq<Option<Json>>): seq<DriverEntry>
    requires |names| == |cs|
    decreases |cs|
  {
    if cs == [] then []
    else
      var n := |cs| - 1;
      Kept(names[..n], cs[..n]) + (if Present(cs[n]) then [DriverEntry(names[n], cs[n].value)] else [])
  }

  /** One entry per present config. */
  lemma {:induction false} KeptLen(names: seq<string>, cs: seq<Option<Json>>)
    requires |names| == |cs|
    ensures |Kept(names, cs)| == CountPresent(cs)
    decreases |cs|
  {
    if cs != [] {
      KeptLen(names[..|cs| - 1], cs[..|cs| - 1]);
    }
  }

  /** The entry of the `i`-th config, when it is present, sits after the
      entries of the present configs before it: the list keeps their order. */
  lemma {:induction false} KeptAt(names: seq<string>, cs: seq<Option<Json>>, i: nat)
    requires |names| == |cs| && i < |cs| && Present(cs[i])
    ensures CountPresent(cs[..i]) < |Kept(names, cs)|
    ensures Kept(names, cs)[CountPresent(cs[..i])] == DriverEntry(names[i], cs[i].value)
    decreases |cs|
  {
    var n := |cs| - 1;
    KeptLen(names[..n], cs[..n]);
    if i < n {
      KeptAt(names[..n], cs[..n], i);
      assert cs[..n][..i] == cs[..i];
    } else {
      assert cs[..i] == cs[..n];
    }
  }

  /** Appending one more configuration appends at most its entry. */
  lemma KeptSnoc(names: seq<string>, cs: seq<Option<Json>>, name: string, c: Option<Json>)
    requires |names| == |cs|
    ensures Kept(names + [name], cs + [c]) ==
      Kept(names, cs) + (if Present(c) then [DriverEntry(name, c.value)] else [])
  {
    assert (names + [name])[..|cs|] == names;
    assert (cs + [c])[..|cs|] == cs;
  }

  /** Where `generate_configs` writes an AHU's result: a file named after the
      AHU, or the unmapped-VAVs file when the AHU name is empty. */
  datatype OutFile = AhuFile(name: string) | UnmappedVavsFile

  function OutFileFor(ahuName: string): (f: OutFile)
    ensures f.UnmappedVavsFile? <==> ahuName == ""
    ensures f.AhuFile? ==> f.name == ahuName
  {
    if ahuName != "" then AhuFile(ahuName) else UnmappedVavsFile
  }

  /** The path the config_generators base opens: `configs/<ahu>.json`, or
      `errors/unmapped_vavs.json`. */
  function CgPath(f: OutFile): string {
    match f
    case AhuFile(n) => "configs/" + n + ".json"
    case UnmappedVavsFile => "errors/unmapped_vavs.json"
  }

  /** The path the src base opens: `<ahu>.json`, or `unmapped_vavs.json`, in
      the same directory. */
  function SrcPath(f: OutFile): string {
    match f
    case AhuFile(n) => n + ".json"
    case UnmappedVavsFile => "unmapped_vavs.json"
  }

  lemma SuffixCancel(a: string, b: string, x: string)
    requires a + x == b + x
    ensures a == b
  {
    assert |a| == |b|;
    assert a == (a + x)[..|a|];
    assert b == (b + x)[..|b|];
  }

  lemma PrefixCancel(p: string, a: string, b: string)
    requires p + a == p + b
    ensures a == b
  {
    assert a == (p + a)[|p|..];
    assert b == (p + b)[|p|..];
  }

  /** In the config_generators layout two AHU names share a file exactly
      when they are equal: the unmapped-VAVs file is in another directory. */
  lemma CgPathInjective(a: string, b: string)
    ensures CgPath(OutFileFor(a)) == CgPath(OutFileFor(b)) <==> a == b
  {
    var pa := CgPath(OutFileFor(a));
    var pb := CgPath(OutFileFor(b));
    if (a == "") != (b == "") {
      assert pa[0] != pb[0];
    }
    if pa == pb {
      if a != "" && b != "" {
        assert ("configs/" + a) + ".json" == ("configs/" + b) + ".json";
        SuffixCancel("configs/" + a, "configs/" + b, ".json");
        PrefixCancel("configs/", a, b);
      }
    }
  }

  /** In the src layout the unmapped-VAVs file and the file of an AHU named
      `unmapped_vavs` are the same file; otherwise two AHU names share a
      file exactly when they are equal. */
  lemma SrcPathShared(a: string, b: string)
    ensures SrcPath(OutFileFor(a)) == SrcPath(OutFileFor(b)) <==>
      a == b || ((a == "" || a == "unmapped_vavs") && (b == "" || b == "unmapped_vavs"))
  {
    var pa := SrcPath(OutFileFor(a));
    var pb := SrcPath(OutFileFor(b));
    var ua := if a == "" then "unmapped_vavs" else a;
    var ub := if b == "" then "unmapped_vavs" else b;
    assert pa == ua + ".json" && pb == ub + ".json";
    if pa == pb {
      SuffixCancel(ua, ub, ".json");
    }
  }

  /** The message of a failed placeholder substitution in the
      config_generators database generator. */
  const ParseErrorCg := "Unable to parse point topic name for nf device id and/or nf object name"

  /** The same message in the JSON generator. */
  const ParseErrorJson := "Unable to parse any of the point topic names for nf device id and/or nf object name"

  /** The record of a VAV whose `ahuRef` is missing. */
  function NoAhuRefRecord(): Record {
    ErrorRecord("vav", "Unable to find ahuRef")
  }

  /** The message of Python's `IndexError` on a list. */
  const IndexErrorMsg := "IndexError: list index out of range"

  /** The message of Python's `KeyError` on a dictionary. */
  function KeyErrorMsg(k: string): string {
    "KeyError: " + k
  }

  /** `m.get(k)` */
  function MapGet(m: map<string, string>, k: string): Option<string> {
    if k in m then Some(m[k]) else None
  }

  /** The topics of an AHU's VAVs, `prefix + ahu + "/" + name` for each, in
      the order of the VAVs: the pattern `prefix + "{}/{}"` filled with the
      AHU and each VAV's short name. */
  function AhuVavTopics(prefix: string, ahu: string, vavs: seq<string>): (ts: seq<string>)
    ensures |ts| == |vavs|
    ensures forall i :: 0 <= i < |vavs| ==> ts[i] == AhuVavTopic(prefix, ahu, NameFromId(vavs[i]))
  {
    seq(|vavs|, i requires 0 <= i < |vavs| => AhuVavTopic(prefix, ahu, NameFromId(vavs[i])))
  }

  /** Every VAV topic lies under the AHU's topic, `prefix + ahu + "/"`, and
      ends with the VAV's short name; two VAVs share a topic exactly when
      they share a short name. */
  lemma AhuVavTopicsSpec(prefix: string, ahu: string, vavs: seq<string>, i: nat, j: nat)
    requires i < |vavs| && j < |vavs|
    ensures var ts := AhuVavTopics(prefix, ahu, vavs);
      IsPrefix(prefix + ahu + "/", ts[i]) &&
      ts[i][|prefix + ahu + "/"|..] == NameFromId(vavs[i]) &&
      (ts[i] == ts[j] <==> NameFromId(vavs[i]) == NameFromId(vavs[j]))
  {
    var ts := AhuVavTopics(prefix, ahu, vavs);
    var p := prefix + ahu + "/";
    assert ts[i] == p + NameFromId(vavs[i]);
    assert ts[j] == p + NameFromId(vavs[j]);
    assert ts[i][..|p|] == p;
    if ts[i] == ts[j] {
      PrefixCancel(p, NameFromId(vavs[i]), NameFromId(vavs[j]));
    }
  }
}
