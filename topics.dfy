/** Topic prefixes: the driver generators' `devices/<campus>/<building>/`
    and the ILC generators' `<campus>/<building>/`. */
module Topics {
  import opened Strs

  /** The driver generators' `__init__`: a configured `topic_prefix`, or
      `devices` followed by `/campus` and `/building` for the non-empty ones;
      a `/` is added when the prefix does not already end in one. */
  function DriverTopicPrefix(configured: string, campus: string, building: string): (p: string)
  {
    WithSlash(PrefixBase(configured, campus, building))
  }

  /** The prefix before the slash is added. */
  function PrefixBase(configured: string, campus: string, building: string): string {
    if configured != "" then configured
    else "devices" + (if campus != "" then "/" + campus else "")
                   + (if building != "" then "/" + building else "")
  }

  /** `base` with a `/` added unless it already ends in one. */
  function WithSlash(base: string): string {
    if IsSuffix("/", base) then base else base + "/"
  }

  /** The prefix always ends in `/`; a configured prefix is kept up to that
      `/`; the default one is `devices/`, `devices/campus/`,
      `devices/building/` or `devices/campus/building/`. */
  lemma {:induction false} DriverTopicPrefixSpec(configured: string, campus: string, building: string)
    ensures var p := DriverTopicPrefix(configured, campus, building);
      |p| > 0 && p[|p| - 1] == '/'
    ensures configured != "" ==>
      DriverTopicPrefix(configured, campus, building) ==
        (if configured[|configured| - 1] == '/' then configured else configured + "/")
    ensures configured == "" && campus == "" && building == "" ==>
      DriverTopicPrefix(configured, campus, building) == "devices/"
    ensures configured == "" && campus != "" && building == "" && campus[|campus| - 1] != '/' ==>
      DriverTopicPrefix(configured, campus, building) == "devices/" + campus + "/"
    ensures configured == "" && building != "" && building[|building| - 1] != '/' ==>
      DriverTopicPrefix(configured, campus, building) ==
        "devices" + (if campus != "" then "/" + campus else "") + "/" + building + "/"
  {
    var base := PrefixBase(configured, campus, building);
    WithSlashSpec(base);
    if configured == "" {
      var campusPart := if campus != "" then "/" + campus else "";
      if building != "" {
        assert base == ("devices" + campusPart) + ("/" + building);
        assert base[|base| - 1] == building[|building| - 1];
        assert base + "/" == "devices" + campusPart + "/" + building + "/";
      } else if campus != "" {
        assert base == "devices" + ("/" + campus);
        assert base[|base| - 1] == campus[|campus| - 1];
        assert base + "/" == "devices/" + campus + "/";
      } else {
        assert base == "devices";
      }
    }
  }

  /** A campus and a building give `devices/campus/building/`. */
  lemma DriverTopicPrefixBoth(campus: string, building: string)
    requires campus != "" && building != "" && building[|building| - 1] != '/'
    ensures DriverTopicPrefix("", campus, building) == "devices/" + campus + "/" + building + "/"
  {
    DriverTopicPrefixSpec("", campus, building);
    assert "devices" + ("/" + campus) == "devices/" + campus;
  }

  /** `WithSlash` ends in `/`, and adds one exactly when the last character
      is not one. */
  lemma WithSlashSpec(base: string)
    requires |base| > 0
    ensures var p := WithSlash(base);
      |p| > 0 && p[|p| - 1] == '/' &&
      p == (if base[|base| - 1] == '/' then base else base + "/")
  {
    assert |"/"| == 1;
    assert base[|base| - 1..] == [base[|base| - 1]];
  }

  /** The ILC generators' `__init__`, as the two conditional expressions
      parse: `(campus + "/") if campus else ""` and then
      `(prefix + building + "/") if building else ""`. The second one drops a
      campus-only prefix when the building is empty. */
  function IlcTopicPrefix(campus: string, building: string): (p: string)
  {
    var first := if campus != "" then campus + "/" else "";
    if building != "" then first + building + "/" else ""
  }

  /** The ILC prefix is empty whenever the building is, even with a campus,
      `campus/building/` with both, and `building/` with the building only. */
  lemma {:induction false} IlcTopicPrefixSpec(campus: string, building: string)
    ensures building == "" ==> IlcTopicPrefix(campus, building) == ""
    ensures building != "" && campus != "" ==> IlcTopicPrefix(campus, building) == campus + "/" + building + "/"
    ensures building != "" && campus == "" ==> IlcTopicPrefix(campus, building) == building + "/"
    ensures campus != "" && building == "" ==> IlcTopicPrefix(campus, building) != campus + "/"
  {
  }

  /** The driver AHU topic, `ahu_topic_pattern.format(ahu)`. */
  function AhuTopic(prefix: string, ahu: string): string {
    prefix + ahu
  }

  /** A VAV topic: `prefix + ahu + "/" + vav`, with the `{ahu}/` segment
      removed when there is no AHU id. */
  function VavTopic(prefix: string, ahuId: string, ahu: string, vav: string): (t: string)
  {
    if ahuId != "" then AhuVavTopic(prefix, ahu, vav) else prefix + vav
  }

  /** A VAV topic under its AHU, `prefix + ahu + "/" + vav`. */
  function AhuVavTopic(prefix: string, ahu: string, vav: string): string {
    prefix + ahu + "/" + vav
  }
}
