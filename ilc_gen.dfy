/** The ILC base class's VAV loops as methods of an object, for any
    back-end: `get_point_name` is the function value `pointName` over the
    back-end's fields `st`, and `unmapped` is `unmapped_device_details`.
    Each method is proved against the functions of `Ilc` that its loop
    computes. */
module IlcGen {
  import opened Wrappers
  import opened Json
  import opened Names
  import opened ODicts
  import opened Folds
  import opened Ilc

  class IlcGenerator<S> {
    const setup: Setup
    const pointName: PointName<S>
    var st: S
    var unmapped: Table

    constructor (setup: Setup, pointName: PointName<S>, st: S, unmapped: Table)
      ensures this.setup == setup && this.pointName == pointName
      ensures this.st == st && this.unmapped == unmapped
    {
      this.setup := setup;
      this.pointName := pointName;
      this.st := st;
      this.unmapped := unmapped;
    }

    /** The lookups of one VAV: `point_mapping` and `skip_vav`. */
    method LookUp(part: Part, vavId: string, types: seq<string>) returns (r: Result<(map<string, string>, bool)>)
      modifies this
      ensures var e := Points(setup, part, pointName, vavId, PState(old(st), old(unmapped), map[], false), types);
        (r.Ok? <==> e.Ok?) &&
        (r.Ok? ==> r.value == (e.value.mapping, e.value.skip) && st == e.value.st && unmapped == e.value.unmapped)
    {
      ghost var p0 := PState(st, unmapped, map[], false);
      var mapping: map<string, string> := map[];
      var skip := false;
      var i := 0;
      while i < |types|
        invariant 0 <= i <= |types|
        invariant Points(setup, part, pointName, vavId, p0, types[..i]) == Ok(PState(st, unmapped, mapping, skip))
      {
        assert types[..i + 1][..i] == types[..i];
        var found := pointName(st, unmapped, vavId, types[i]);
        st, unmapped := found.st, found.unmapped;
        if found.name != "" {
          mapping := mapping[types[i] := found.name];
        } else {
          if !HasRecord(unmapped, vavId) {
            var msg := MissingMsg(setup, part, types[i]);
            if msg.Err? {
              PointsPrefixErr(setup, part, pointName, vavId, p0, types, i + 1);
              return Err(msg.msg);
            }
            unmapped := unmapped[vavId := ErrorRecord("vav", msg.value)];
          }
          skip := true;
        }
        i := i + 1;
      }
      assert types[..i] == types;
      r := Ok((mapping, skip));
    }

    /** One VAV of either loop: its lookups and, unless it is skipped, its
        entry under its key. */
    method VavConfig(part: Part, vavId: string, ahuId: string, out: ODict<(string, Entry)>)
      returns (r: Result<ODict<(string, Entry)>>)
      modifies this
      ensures var e := VavStep(setup, part, pointName, VState(old(st), old(unmapped), out), vavId, ahuId);
        (r.Ok? <==> e.Ok?) && (r.Ok? ==> r.value == e.value.out && st == e.value.st && unmapped == e.value.unmapped)
    {
      var key := VavKey(vavId, ahuId);
      if part == Control && !setup.controlTemplate.JObj? {
        return Err("TypeError");
      }
      var found := LookUp(part, vavId, Types(setup, part));
      if found.Err? {
        return Err(found.msg);
      }
      var (mapping, skip) := found.value;
      if skip {
        return Ok(out);
      }
      var e := Build(setup, part)(key, mapping);
      if e.Err? {
        return Err(e.msg);
      }
      r := Ok(Put(out, key, (NameFromId(vavId), e.value)));
    }

    /** `generate_control_config` or `generate_criteria_config`: the loop
        over the VAVs, from an empty config. */
    method GenerateVavConfigs(part: Part, vavs: seq<(string, string)>) returns (r: Result<ODict<(string, Entry)>>)
      modifies this
      ensures var e := Vavs(setup, part, pointName, VState(old(st), old(unmapped), []), vavs);
        (r.Ok? <==> e.Ok?) && (r.Ok? ==> r.value == e.value.out && st == e.value.st && unmapped == e.value.unmapped)
    {
      ghost var v0 := VState(st, unmapped, []);
      var out: ODict<(string, Entry)> := [];
      var i := 0;
      while i < |vavs|
        invariant 0 <= i <= |vavs|
        invariant Vavs(setup, part, pointName, v0, vavs[..i]) == Ok(VState(st, unmapped, out))
      {
        FoldSnoc(StepOf(setup, part, pointName), v0, vavs, i);
        var next := VavConfig(part, vavs[i].0, vavs[i].1, out);
        if next.Err? {
          FoldPrefixErr(StepOf(setup, part, pointName), v0, vavs, i + 1);
          return Err(next.msg);
        }
        out := next.value;
        i := i + 1;
      }
      assert vavs[..i] == vavs;
      r := Ok(out);
    }

    /** `generate_configs` once `generate_ilc_config` has returned. */
    method GenerateConfigs(ilc: IlcResult, vavs: seq<(string, string)>) returns (r: Result<IlcRun>)
      modifies this
      ensures var e := Run(setup, ilc, pointName, old(st), old(unmapped), vavs);
        (r.Ok? <==> e.Ok?) && (r.Ok? ==> r.value == e.value)
      ensures r.Ok? ==> unmapped == (if ilc.Failed? && ilc.error != map[] then old(unmapped) else r.value.errors)
    {
      if ilc.Failed? && ilc.error != map[] {
        return Ok(IlcRun(None, [], [], ilc.error, FirstFiles(setup), [], 1));
      }
      var control := GenerateVavConfigs(Control, vavs);
      if control.Err? {
        return Err(control.msg);
      }
      var c := VState(st, unmapped, control.value);
      var criteria := GenerateVavConfigs(Criteria, vavs);
      if criteria.Err? {
        return Err(criteria.msg);
      }
      r := Ok(Finish(setup, ilc, c, VState(st, unmapped, criteria.value)));
    }
  }
}
