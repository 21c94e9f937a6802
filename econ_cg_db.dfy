/** The cg airside economizer generator over the Postgres tag tables
    (`IntellimationAirsideEconomizerConfigGenerator`), with the
    `generate_configs` and `generate_ahu_configs` of the economizer base.
    `get_ahus` returns the rows of the AHU query as they are; a role's
    topic is the first row's topic of a query per candidate meta value,
    taking the first candidate whose topic is not empty, and the topic is
    recorded under the last candidate tried, even when it is empty. Nothing
    here fails but a template without a point mapping and an AHU row
    without columns. */
module EconCgDb {
  import opened Wrappers
  import opened Json
  import opened Names
  import opened Drivers
  import opened Rows
  import opened ODicts
  import opened Rcx
  import opened Econ

  /** The template with its `device` set, `point_meta_map`,
      `point_meta_field`, the rows of the AHU query and the point table in
      the order the database returns its rows. */
  datatype DbSetup = DbSetup(
    template: Json,
    metaMap: MetaMap,
    metaField: string,
    ahuRows: seq<seq<string>>,
    pointRows: seq<PointRow>)

  /** A dictionary's keys are unique, and the template is a dictionary. */
  predicate ValidSetup(s: DbSetup) {
    UniqueKeys(s.metaMap) && s.template.JObj?
  }

  /** `__init__`: the building and campus (from the site id when not
      configured) and the template's `device` entry. */
  function SetupOf(siteId: string, building: string, campus: string, template: Json,
                   metaMap: MetaMap, metaField: string,
                   ahuRows: seq<seq<string>>, pointRows: seq<PointRow>): (r: Result<DbSetup>)
    requires UniqueKeys(metaMap)
    ensures r.Ok? <==> Location(siteId, building, campus).Ok? && template.JObj?
    ensures r.Ok? ==> ValidSetup(r.value)
    ensures r.Ok? ==> var (b, c) := Location(siteId, building, campus).value;
      r.value == DbSetup(InitTemplate(template, c, b), metaMap, metaField, ahuRows, pointRows)
  {
    var loc :- Location(siteId, building, campus);
    if !template.JObj? then Err("TypeError: config_template is not a dictionary")
    else Ok(DbSetup(InitTemplate(template, loc.1, loc.0), metaMap, metaField, ahuRows, pointRows))
  }

  /** The fields the methods update: `equip_id_point_topic_map` (AHU to
      meta value to topic) and `unmapped_device_details`. */
  datatype DState = DState(topicMap: map<string, map<string, string>>, unmapped: Table)

  datatype Step<T> = Step(value: T, st: DState)

  // ----- query_for_topic -----

  /** The first topic the query for an equipment and meta value returns,
      `""` without rows. */
  function FirstTopic(s: DbSetup, e: string, pt: string): string {
    var ts := TopicQuery(s.pointRows, s.metaField, e, pt);
    if ts == [] then "" else ts[0]
  }

  /** `query_for_topic`: the candidate tried last and its topic. */
  function ForTopic(s: DbSetup, e: string, cs: seq<string>): (string, string)
    decreases |cs|
  {
    if cs == [] then ("", "")
    else
      var t := FirstTopic(s, e, cs[0]);
      if t != "" || |cs| == 1 then (cs[0], t) else ForTopic(s, e, cs[1..])
  }

  /** First match wins: the topic is that of the first candidate with a
      non-empty topic, tried last. With none, the topic is empty and the
      last candidate was tried last, or none without candidates. */
  lemma {:induction false} ForTopicSpec(s: DbSetup, e: string, cs: seq<string>)
    ensures cs == [] ==> ForTopic(s, e, cs) == ("", "")
    ensures cs != [] && (forall i :: 0 <= i < |cs| ==> FirstTopic(s, e, cs[i]) == "") ==>
      ForTopic(s, e, cs) == (cs[|cs| - 1], "")
    ensures forall i :: 0 <= i < |cs| && FirstTopic(s, e, cs[i]) != "" && (forall j :: 0 <= j < i ==> FirstTopic(s, e, cs[j]) == "") ==>
      ForTopic(s, e, cs) == (cs[i], FirstTopic(s, e, cs[i]))
    decreases |cs|
  {
    if |cs| > 1 {
      ForTopicSpec(s, e, cs[1..]);
      assert forall i :: 0 < i < |cs| ==> cs[1..][i - 1] == cs[i];
      forall i | 0 < i < |cs| && FirstTopic(s, e, cs[i]) != "" && (forall j :: 0 <= j < i ==> FirstTopic(s, e, cs[j]) == "")
        ensures ForTopic(s, e, cs) == (cs[i], FirstTopic(s, e, cs[i]))
      {
        assert forall j :: 0 <= j < i - 1 ==> FirstTopic(s, e, cs[1..][j]) == "" by {
          forall j | 0 <= j < i - 1 ensures FirstTopic(s, e, cs[1..][j]) == "" {
            assert cs[1..][j] == cs[j + 1];
          }
        }
      }
    }
  }

  /** The topic is empty exactly when every candidate's is. */
  lemma ForTopicEmpty(s: DbSetup, e: string, cs: seq<string>)
    ensures ForTopic(s, e, cs).1 == "" <==> forall i :: 0 <= i < |cs| ==> FirstTopic(s, e, cs[i]) == ""
  {
    ForTopicSpec(s, e, cs);
    if exists i :: 0 <= i < |cs| && FirstTopic(s, e, cs[i]) != "" {
      var i := FirstNonEmpty(s, e, cs);
      assert ForTopic(s, e, cs) == (cs[i], FirstTopic(s, e, cs[i]));
    }
  }

  lemma {:induction false} FirstNonEmpty(s: DbSetup, e: string, cs: seq<string>) returns (i: nat)
    requires exists k :: 0 <= k < |cs| && FirstTopic(s, e, cs[k]) != ""
    ensures i < |cs| && FirstTopic(s, e, cs[i]) != "" && forall j :: 0 <= j < i ==> FirstTopic(s, e, cs[j]) == ""
    decreases |cs|
  {
    if FirstTopic(s, e, cs[0]) != "" {
      i := 0;
    } else {
      var k :| 0 <= k < |cs| && FirstTopic(s, e, cs[k]) != "";
      assert cs[1..][k - 1] == cs[k];
      var i1 := FirstNonEmpty(s, e, cs[1..]);
      i := i1 + 1;
      forall j | 0 <= j < i ensures FirstTopic(s, e, cs[j]) == "" {
        if j > 0 {
          assert cs[j] == cs[1..][j - 1];
        }
      }
    }
  }

  // ----- get_topic_by_point_type, get_point_name -----

  /** The candidate tried last for a key of `point_meta_map`, and its topic. */
  function Chosen(s: DbSetup, e: string, key: string): (string, string)
    requires key in Keys(s.metaMap)
  {
    GetSome(s.metaMap, key);
    ForTopic(s, e, Candidates(Get(s.metaMap, key).value))
  }

  /** `get_topic_by_point_type`: the topic, recorded in the AHU's entry
      under the candidate tried last. */
  function TopicFor(s: DbSetup, st: DState, e: string, key: string): Step<string>
    requires key in Keys(s.metaMap)
  {
    var (pt, t) := Chosen(s, e, key);
    Step(t, st.(topicMap := st.topicMap[e := EntryOf(st.topicMap, e)[pt := t]]))
  }

  /** The candidate and topic each key chooses; the queries do not depend
      on what the lookups record. */
  function Choices(s: DbSetup, e: string, keys: seq<string>): (r: seq<(string, string)>)
    requires forall i :: 0 <= i < |keys| ==> keys[i] in Keys(s.metaMap)
    ensures |r| == |keys| && forall i :: 0 <= i < |keys| ==> r[i] == Chosen(s, e, keys[i])
  {
    seq(|keys|, i requires 0 <= i < |keys| && keys[i] in Keys(s.metaMap) => Chosen(s, e, keys[i]))
  }

  /** The topic map after recording each choice in turn under `e`. */
  function Record(m: map<string, map<string, string>>, e: string, cs: seq<(string, string)>): map<string, map<string, string>>
    decreases |cs|
  {
    if cs == [] then m
    else
      var n := |cs| - 1;
      var m1 := Record(m, e, cs[..n]);
      m1[e := EntryOf(m1, e)[cs[n].0 := cs[n].1]]
  }

  /** Recording keeps every other equipment's entry, and creates `e`'s
      when there is a choice. */
  lemma {:induction false} RecordFrame(m: map<string, map<string, string>>, e: string, cs: seq<(string, string)>)
    ensures forall k :: k != e ==> (k in Record(m, e, cs) <==> k in m) && (k in m ==> Record(m, e, cs)[k] == m[k])
    ensures cs != [] ==> e in Record(m, e, cs)
    decreases |cs|
  {
    if cs != [] {
      RecordFrame(m, e, cs[..|cs| - 1]);
    }
  }

  /** A choice no later one overwrites stays recorded. */
  lemma {:induction false} RecordLast(m: map<string, map<string, string>>, e: string, cs: seq<(string, string)>, i: nat)
    requires i < |cs| && forall j :: i < j < |cs| ==> cs[j].0 != cs[i].0
    ensures At(Record(m, e, cs), e, cs[i].0) == Some(cs[i].1)
    decreases |cs|
  {
    var n := |cs| - 1;
    if i < n {
      assert cs[..n][i] == cs[i];
      assert forall j :: i < j < n ==> cs[..n][j] == cs[j];
      RecordLast(m, e, cs[..n], i);
    }
  }

  /** A meta value no choice names keeps what it held. */
  lemma {:induction false} RecordUntouched(m: map<string, map<string, string>>, e: string, cs: seq<(string, string)>, pt: string)
    requires forall j :: 0 <= j < |cs| ==> cs[j].0 != pt
    ensures At(Record(m, e, cs), e, pt) == At(m, e, pt)
    decreases |cs|
  {
    if cs != [] {
      var n := |cs| - 1;
      assert forall j :: 0 <= j < n ==> cs[..n][j] == cs[j];
      RecordUntouched(m, e, cs[..n], pt);
    }
  }

  /** The names of some keys of one AHU, in key order (`get_point_name` for
      each: the name part of the topic), and the state once every lookup
      has recorded its topic. */
  function KeyNames(s: DbSetup, st: DState, e: string, keys: seq<string>): (r: Step<seq<string>>)
    requires forall i :: 0 <= i < |keys| ==> keys[i] in Keys(s.metaMap)
    ensures |r.value| == |keys|
  {
    var cs := Choices(s, e, keys);
    Step(seq(|keys|, i requires 0 <= i < |keys| => PointNameFromTopic(cs[i].1)), st.(topicMap := Record(st.topicMap, e, cs)))
  }

  /** Each name is the name part of its key's chosen topic. The lookups
      keep the unmapped table and every other equipment's topics, create
      the AHU's entry when there is a key, and leave there each key's topic
      under its chosen candidate unless a later key chooses the same one;
      a meta value no key chooses keeps its topic. */
  lemma KeyNamesSpec(s: DbSetup, st: DState, e: string, keys: seq<string>)
    requires forall i :: 0 <= i < |keys| ==> keys[i] in Keys(s.metaMap)
    ensures var r := KeyNames(s, st, e, keys);
      (forall i :: 0 <= i < |keys| ==> r.value[i] == PointNameFromTopic(Chosen(s, e, keys[i]).1)) &&
      r.st.unmapped == st.unmapped &&
      (forall k :: k != e ==> (k in r.st.topicMap <==> k in st.topicMap) && (k in st.topicMap ==> r.st.topicMap[k] == st.topicMap[k])) &&
      (keys != [] ==> e in r.st.topicMap)
    ensures forall i :: 0 <= i < |keys| && (forall j :: i < j < |keys| ==> Chosen(s, e, keys[j]).0 != Chosen(s, e, keys[i]).0) ==>
      At(KeyNames(s, st, e, keys).st.topicMap, e, Chosen(s, e, keys[i]).0) == Some(Chosen(s, e, keys[i]).1)
    ensures forall pt :: (forall j :: 0 <= j < |keys| ==> Chosen(s, e, keys[j]).0 != pt) ==>
      At(KeyNames(s, st, e, keys).st.topicMap, e, pt) == At(st.topicMap, e, pt)
  {
    var cs := Choices(s, e, keys);
    RecordFrame(st.topicMap, e, cs);
    forall i | 0 <= i < |keys| && (forall j :: i < j < |keys| ==> Chosen(s, e, keys[j]).0 != Chosen(s, e, keys[i]).0)
      ensures At(Record(st.topicMap, e, cs), e, cs[i].0) == Some(cs[i].1)
    {
      RecordLast(st.topicMap, e, cs, i);
    }
    forall pt | forall j :: 0 <= j < |keys| ==> Chosen(s, e, keys[j]).0 != pt
      ensures At(Record(st.topicMap, e, cs), e, pt) == At(st.topicMap, e, pt)
    {
      RecordUntouched(st.topicMap, e, cs, pt);
    }
  }

  lemma RecordSnoc(m: map<string, map<string, string>>, e: string, cs: seq<(string, string)>, c: (string, string))
    ensures var m1 := Record(m, e, cs); Record(m, e, cs + [c]) == m1[e := EntryOf(m1, e)[c.0 := c.1]]
  {
    assert (cs + [c])[..|cs|] == cs;
  }

  lemma ChoicesSnoc(s: DbSetup, e: string, keys: seq<string>, i: nat)
    requires forall j :: 0 <= j < |keys| ==> keys[j] in Keys(s.metaMap)
    requires i < |keys|
    ensures Choices(s, e, keys[..i + 1]) == Choices(s, e, keys[..i]) + [Chosen(s, e, keys[i])]
  {
  }

  /** One more key: its name, and its topic recorded as `get_topic_by_point_type` does. */
  lemma KeyNamesStep(s: DbSetup, st: DState, e: string, keys: seq<string>, i: nat)
    requires forall j :: 0 <= j < |keys| ==> keys[j] in Keys(s.metaMap)
    requires i < |keys|
    ensures var p := KeyNames(s, st, e, keys[..i]); var q := TopicFor(s, p.st, e, keys[i]);
      KeyNames(s, st, e, keys[..i + 1]) == Step(p.value + [PointNameFromTopic(q.value)], q.st)
  {
    var cs := Choices(s, e, keys[..i]);
    var c := Chosen(s, e, keys[i]);
    ChoicesSnoc(s, e, keys, i);
    RecordSnoc(st.topicMap, e, cs, c);
    var p := KeyNames(s, st, e, keys[..i]);
    var m := Record(st.topicMap, e, cs);
    assert TopicFor(s, p.st, e, keys[i]) == Step(c.1, p.st.(topicMap := m[e := EntryOf(m, e)[c.0 := c.1]]));
    assert KeyNames(s, st, e, keys[..i + 1]).value == p.value + [PointNameFromTopic(c.1)];
  }

  // ----- generate_ahu_configs (base) -----

  /** The point names of an AHU, one per entry of `point_meta_map`. */
  function DbNames(s: DbSetup, e: string): (r: seq<string>)
    ensures |r| == |s.metaMap| == |Keys(s.metaMap)|
    ensures forall i :: 0 <= i < |s.metaMap| ==> r[i] == PointNameFromTopic(ForTopic(s, e, Candidates(s.metaMap[i].1)).1)
  {
    KeysLen(s.metaMap);
    seq(|s.metaMap|, i requires 0 <= i < |s.metaMap| => PointNameFromTopic(ForTopic(s, e, Candidates(s.metaMap[i].1)).1))
  }

  /** `generate_ahu_configs(ahu_id)` without the AHU's short name: a
      `KeyError` for a template without `arguments.point_mapping`; then the
      lookup of every key, and the outcome of the base. */
  function AhuOutcome(s: DbSetup, st: DState, ahuId: string): Result<Step<Option<Json>>> {
    if !RcxTemplate(s.template) then Err(TemplateErrorMsg)
    else
      var keys := Keys(s.metaMap);
      var r := KeyNames(s, st, ahuId, keys);
      var (c, u) := Outcome(s.template, ahuId, keys, r.value, r.st.topicMap, r.st.unmapped);
      Ok(Step(c, r.st.(unmapped := u)))
  }

  /** The call fails exactly for a template without a point mapping.
      Otherwise it is the base's outcome with each key's name taken from
      the topic its candidates choose. */
  lemma AhuOutcomeSpec(s: DbSetup, st: DState, ahuId: string)
    requires ValidSetup(s)
    ensures AhuOutcome(s, st, ahuId).Ok? <==> RcxTemplate(s.template)
    ensures AhuOutcome(s, st, ahuId).Ok? ==>
      var r := KeyNames(s, st, ahuId, Keys(s.metaMap));
      var (c, u) := Outcome(s.template, ahuId, Keys(s.metaMap), DbNames(s, ahuId), r.st.topicMap, r.st.unmapped);
      AhuOutcome(s, st, ahuId).value == Step(c, r.st.(unmapped := u))
  {
    var keys := Keys(s.metaMap);
    if RcxTemplate(s.template) {
      KeysLen(s.metaMap);
      KeyNamesSpec(s, st, ahuId, keys);
      var r := KeyNames(s, st, ahuId, keys);
      forall i | 0 <= i < |keys| ensures r.value[i] == DbNames(s, ahuId)[i] {
        GetEntry(s.metaMap, i);
      }
      assert r.value == DbNames(s, ahuId);
    }
  }

  /** The outcome once every key's name is known. */
  lemma AhuOutcomeOf(s: DbSetup, st: DState, ahuId: string, names: seq<string>, st2: DState)
    requires RcxTemplate(s.template) && KeyNames(s, st, ahuId, Keys(s.metaMap)) == Step(names, st2)
    ensures var (c, u) := Outcome(s.template, ahuId, Keys(s.metaMap), names, st2.topicMap, st2.unmapped);
      AhuOutcome(s, st, ahuId) == Ok(Step(c, st2.(unmapped := u)))
  {
  }

  // ----- generate_configs (base) -----

  /** The loop of `generate_configs` over the AHU rows: each AHU's short
      name and config, up to the first failure. */
  function Runs(s: DbSetup, st: DState, rows: seq<seq<string>>): (r: Result<Step<seq<(string, Option<Json>)>>>)
    ensures r.Ok? ==> |r.value.value| == |rows|
    decreases |rows|
  {
    if rows == [] then Ok(Step([], st))
    else
      var id :- AhuIdOf(RowElem(rows[0]));
      var o :- AhuOutcome(s, st, id);
      var rest :- Runs(s, o.st, rows[1..]);
      Ok(Step([(NameFromId(id), o.value)] + rest.value, rest.st))
  }

  /** The loop fails exactly when there is an AHU row and the template has
      no point mapping, or some row has no column; its outputs are the
      AHUs' short names, in order. */
  lemma RunsSpec(s: DbSetup, st: DState, rows: seq<seq<string>>)
    requires ValidSetup(s)
    ensures Runs(s, st, rows).Ok? <==> rows == [] || (RcxTemplate(s.template) && forall i :: 0 <= i < |rows| ==> rows[i] != [])
    ensures Runs(s, st, rows).Ok? ==> forall i :: 0 <= i < |rows| ==> Runs(s, st, rows).value.value[i].0 == NameFromId(rows[i][0])
  {
    RunsOk(s, st, rows);
    if Runs(s, st, rows).Ok? {
      RunsNames(s, st, rows);
    }
  }

  lemma {:induction false} RunsOk(s: DbSetup, st: DState, rows: seq<seq<string>>)
    requires ValidSetup(s)
    ensures Runs(s, st, rows).Ok? <==> rows == [] || (RcxTemplate(s.template) && forall i :: 0 <= i < |rows| ==> rows[i] != [])
    decreases |rows|
  {
    if rows != [] {
      assert forall i :: 0 < i < |rows| ==> rows[1..][i - 1] == rows[i];
      if rows[0] != [] {
        AhuOutcomeSpec(s, st, rows[0][0]);
        if RcxTemplate(s.template) {
          RunsOk(s, AhuOutcome(s, st, rows[0][0]).value.st, rows[1..]);
        }
      }
    }
  }

  lemma {:induction false} RunsNames(s: DbSetup, st: DState, rows: seq<seq<string>>)
    requires Runs(s, st, rows).Ok?
    ensures forall i :: 0 <= i < |rows| ==> rows[i] != [] && Runs(s, st, rows).value.value[i].0 == NameFromId(rows[i][0])
    decreases |rows|
  {
    if rows != [] {
      var o := AhuOutcome(s, st, rows[0][0]).value;
      RunsNames(s, o.st, rows[1..]);
      assert forall i :: 0 < i < |rows| ==> rows[1..][i - 1] == rows[i];
    }
  }

  /** The outputs of the AHUs done so far in front of the rest of the loop;
      a failure in the rest is the loop's failure. */
  function Then(outs: seq<(string, Option<Json>)>, r: Result<Step<seq<(string, Option<Json>)>>>): Result<Step<seq<(string, Option<Json>)>>> {
    if r.Err? then r else Ok(Step(outs + r.value.value, r.value.st))
  }

  lemma RunsFront(s: DbSetup, st: DState, rows: seq<seq<string>>, i: nat)
    requires i < |rows|
    ensures var id := AhuIdOf(RowElem(rows[i]));
      Runs(s, st, rows[i..]) ==
        if id.Err? then Err(id.msg)
        else
          var o := AhuOutcome(s, st, id.value);
          if o.Err? then Err(o.msg) else Then([(NameFromId(id.value), o.value.value)], Runs(s, o.value.st, rows[i + 1..]))
  {
    assert rows[i..][0] == rows[i] && rows[i..][1..] == rows[i + 1..];
  }

  lemma ThenEnds(outs: seq<(string, Option<Json>)>, st: DState, r: Result<Step<seq<(string, Option<Json>)>>>)
    ensures Then([], r) == r
    ensures Then(outs, Ok(Step([], st))) == Ok(Step(outs, st))
  {
    if r.Ok? {
      assert [] + r.value.value == r.value.value;
    }
    assert outs + [] == outs;
  }

  lemma ThenThen(outs: seq<(string, Option<Json>)>, o: (string, Option<Json>), r: Result<Step<seq<(string, Option<Json>)>>>)
    ensures Then(outs, Then([o], r)) == Then(outs + [o], r)
  {
    if r.Ok? {
      assert outs + ([o] + r.value.value) == (outs + [o]) + r.value.value;
    }
  }

  /** `generate_configs`: every AHU row in turn; the files written and the
      exit status. */
  function Generate(s: DbSetup, st: DState): Result<Step<(seq<(string, Json)>, int)>> {
    var r :- Runs(s, st, s.ahuRows);
    Ok(Step((Files(r.value), ExitStatus(r.st.unmapped)), r.st))
  }

  class DbEconGenerator {
    const setup: DbSetup
    /** `equip_id_point_topic_map` */
    var topicMap: map<string, map<string, string>>
    /** `unmapped_device_details` */
    var unmapped: Table

    function State(): DState
      reads this
    {
      DState(topicMap, unmapped)
    }

    constructor (setup: DbSetup)
      requires ValidSetup(setup)
      ensures this.setup == setup && State() == DState(map[], map[])
    {
      this.setup := setup;
      topicMap := map[];
      unmapped := map[];
    }

    /** `query_for_topic`: one query per candidate, stopping at the first
        non-empty topic. */
    method QueryForTopic(e: string, cs: seq<string>) returns (pointType: string, topic: string)
      ensures (pointType, topic) == ForTopic(setup, e, cs)
    {
      topic := "";
      pointType := "";
      var i := 0;
      assert cs[0..] == cs;
      while i < |cs|
        invariant 0 <= i <= |cs| && topic == ""
        invariant ForTopic(setup, e, cs) == if i == |cs| then (pointType, "") else ForTopic(setup, e, cs[i..])
      {
        assert cs[i..][0] == cs[i] && cs[i..][1..] == cs[i + 1..];
        pointType := cs[i];
        var result := TopicQuery(setup.pointRows, setup.metaField, e, cs[i]);
        if result != [] {
          topic := result[0];
          if topic != "" {
            break;
          }
        }
        i := i + 1;
      }
    }

    /** `get_topic_by_point_type(equip_id, point_key)` */
    method GetTopicByPointType(equipId: string, key: string) returns (topic: string)
      requires key in Keys(setup.metaMap)
      modifies this
      ensures var q := TopicFor(setup, old(State()), equipId, key); topic == q.value && State() == q.st
    {
      GetSome(setup.metaMap, key);
      var v := Get(setup.metaMap, key).value;
      var candidates: seq<string>;
      match v {
        case Single(t) =>
          candidates := [t];
        case Several(ts) =>
          candidates := ts;
      }
      var pointType;
      pointType, topic := QueryForTopic(equipId, candidates);
      assert (pointType, topic) == Chosen(setup, equipId, key);
      ghost var m0 := topicMap;
      if !(equipId in topicMap && topicMap[equipId] != map[]) {
        topicMap := topicMap[equipId := map[]];
      }
      assert topicMap[equipId] == EntryOf(m0, equipId);
      topicMap := topicMap[equipId := topicMap[equipId][pointType := topic]];
      assert topicMap == m0[equipId := EntryOf(m0, equipId)[pointType := topic]];
    }

    /** `get_point_name(equip_id, "ahu", point_key)` */
    method GetPointName(equipId: string, key: string) returns (name: string)
      requires key in Keys(setup.metaMap)
      modifies this
      ensures var q := TopicFor(setup, old(State()), equipId, key); name == PointNameFromTopic(q.value) && State() == q.st
    {
      var topic := GetTopicByPointType(equipId, key);
      name := PointNameFromTopic(topic);
    }

    /** The lookup of the next key, continuing the lookups of the earlier ones. */
    method NextName(ahuId: string, keys: seq<string>, i: nat, ghost st0: DState, ghost names: seq<string>) returns (name: string)
      requires forall j :: 0 <= j < |keys| ==> keys[j] in Keys(setup.metaMap)
      requires i < |keys| && KeyNames(setup, st0, ahuId, keys[..i]) == Step(names, State())
      modifies this
      ensures KeyNames(setup, st0, ahuId, keys[..i + 1]) == Step(names + [name], State())
    {
      KeyNamesStep(setup, st0, ahuId, keys, i);
      name := GetPointName(ahuId, keys[i]);
    }

    /** `generate_ahu_configs(ahu_id)`: the point mapping is filled, and the
        missing keys collected, one key at a time. */
    method GenerateAhuConfigs(ahuId: string) returns (r: Result<(string, Option<Json>)>)
      requires ValidSetup(setup)
      modifies this
      ensures var e := AhuOutcome(setup, old(State()), ahuId);
        (r.Ok? <==> e.Ok?) && (r.Ok? ==> r.value == (NameFromId(ahuId), e.value.value) && State() == e.value.st)
    {
      if !RcxTemplate(setup.template) {
        return Err(TemplateErrorMsg);
      }
      var t := setup.template;
      var ahu := NameFromId(ahuId);
      var keys := Keys(setup.metaMap);
      ghost var st0 := State();
      ghost var names: seq<string> := [];
      var config := Blank(t, ahu);
      var missing: seq<string> := [];
      var i := 0;
      while i < |keys|
        invariant 0 <= i <= |keys|
        invariant KeyNames(setup, st0, ahuId, keys[..i]) == Step(names, State())
        invariant |names| == i
        invariant config == Assemble(t, ahu, [], Found(keys[..i], names)) && missing == Missing(keys[..i], names)
      {
        var name := NextName(ahuId, keys, i, st0, names);
        ConfigStep(t, ahu, keys, names, i, name);
        if name != "" {
          config := SetPoint(config, keys[i], name);
        } else {
          missing := missing + [keys[i]];
        }
        names := names + [name];
        i := i + 1;
      }
      assert keys[..i] == keys;
      AhuOutcomeOf(setup, st0, ahuId, names, State());
      if missing != [] {
        unmapped := unmapped[ahuId := TopicRecord("ahu", MissingMsg(missing), TopicsOf(topicMap, ahuId))];
        return Ok((ahu, None));
      }
      r := Ok((ahu, Some(config)));
    }

    /** `generate_configs`: the files written, in order, and the exit status. */
    method GenerateConfigs() returns (r: Result<(seq<(string, Json)>, int)>)
      requires ValidSetup(setup)
      modifies this
      ensures var e := Generate(setup, old(State()));
        (r.Ok? <==> e.Ok?) && (r.Ok? ==> r.value == e.value.value && State() == e.value.st)
    {
      var rows := setup.ahuRows;
      ghost var st0 := State();
      var outs: seq<(string, Option<Json>)> := [];
      var files: seq<(string, Json)> := [];
      var i := 0;
      assert rows[0..] == rows;
      ThenEnds(outs, st0, Runs(setup, st0, rows));
      while i < |rows|
        invariant 0 <= i <= |rows|
        invariant |outs| == i && Runs(setup, st0, rows) == Then(outs, Runs(setup, State(), rows[i..]))
        invariant files == Files(outs)
      {
        RunsFront(setup, State(), rows, i);
        if rows[i] == [] {
          return Err(IndexErrorMsg);
        }
        var out := GenerateAhuConfigs(rows[i][0]);
        if out.Err? {
          return Err(out.msg);
        }
        ThenThen(outs, out.value, Runs(setup, State(), rows[i + 1..]));
        FilesSnoc(outs, out.value);
        if out.value.1.Some? && Truthy(out.value.1.value) {
          files := files + [(out.value.0, out.value.1.value)];
        }
        outs := outs + [out.value];
        i := i + 1;
      }
      assert rows[i..] == [];
      ThenEnds(outs, State(), Runs(setup, State(), rows[i..]));
      r := Ok((files, ExitStatus(unmapped)));
    }
  }
}
