# Haystack tag parser: configuration generators, modelled in Dafny

The repository turns the Haystack tags of a building into VOLTTRON agent
configurations. Its input is either two JSON row documents (equipment rows and
point rows) or a Postgres tag table. It writes one configuration per
equipment for these agents:
- the platform driver;
- the airside RCx agent;
- the airside economizer agent;
- the ILC agent.

Each family exists twice: in `config_generators/src/...` and in `src/...`.
Each version has a base class with a JSON back-end, a database
("intellimation") back-end, or both.

All the families share one kernel:
- derive names from Haystack ids and topics;
- group VAVs under their AHU;
- index the point rows by equipment and meta value;
- pick one power meter;
- try candidate meta values first-match-wins;
- fill a configuration template per equipment, recording missing points in
  `unmapped_device_details`;
- collapse the per-role point name sets of VAVs;
- substitute point names into ILC condition strings;
- strip comments from configuration text.

This project models that kernel and proves what it promises.

## Modules
- Shared values and functions:
  - `Wrappers` and `Json` (in `json.dfy`): results and JSON values;
  - `Strs`: `split`, `replace` and suffixes;
  - `Names`: ids, topics, object names, building and campus;
  - `Topics`: topic prefixes;
  - `ODicts`: insertion-ordered dictionaries;
  - `Rows`: the JSON rows;
  - `Folds`: a loop that can fail;
  - `Collapse`: the set-collapsing law;
  - `Tokens`: `replace_point_names` and `sort(key=len)`;
  - `Comments`: `strip_comments`.
- Driver:
  - `Drivers`: the shared template and prefix;
  - `DriverCg`: the config_generators database back-end with its base;
  - `DriverSrcDb`, `DriverSrcJson` and `DriverSrcFlat`: the three src back-ends.
- Airside RCx:
  - `Rcx`: the shared point keys and config shape;
  - `RcxCg`: the config_generators JSON back-end with its base;
  - `RcxSrcDb` and `RcxSrcJson`: the src back-ends.
- Airside economizer:
  - `Econ`: the base;
  - `EconCgDb`: the config_generators database back-end;
  - `EconSrcJson`: the src JSON back-end.
- ILC:
  - `Ilc`: both versions of the base, as `Cg*` and `Src*` members;
  - `IlcGen`: the base's VAV loops as methods of an object over any back-end;
  - `IlcCgDb` and `IlcCgJson`: the config_generators back-ends.

Where a back-end updates its own fields, it is a class:
- the fields the source updates in place (`ahu_list`, `vav_list`, the point
  maps, `unmapped_device_details`) are fields of that class;
- each method is proved against a function of the old state and the inputs.

Several lemmas relate those functions:
- a loop run once more;
- a failing prefix;
- the last write winning;
- a second load changing nothing.

A Python exception is an `Err` named after the exception. A database query
result is an input sequence of rows.

Some behaviours are modelled as the code is written, not as its comments
describe them:
- Substitution order. The point-name tokens are sorted by `sort(key=len)`,
  so the shortest is substituted first. `Tokens.ShortestFirstShadows` shows
  the consequence.
- The RCx fan check. The config_generators RCx base tests `fan_speed`, not
  `fan_speedcmd`. `RcxCg.AhuPlanFanMissing` shows the consequence.
- The ILC topic prefix. The config_generators ILC prefix keeps the
  precedence of its conditional expression: it is `""` whenever the building
  is empty, even with a campus (`Topics.IlcTopicPrefixSpec`).

## Model

| member | source | states |
|---|---|---|
| Strs.Split | config_generators/src/volttron/haystack/parser/driver/intellimation/config_intellimation.py:158-160 | `str.split` is never empty and no piece holds the separator |
| Strs.JoinSplit | config_generators/src/volttron/haystack/parser/driver/intellimation/config_intellimation.py:158-160 | joining the pieces of a split gives the string back |
| Strs.SplitJoin | config_generators/src/volttron/haystack/parser/driver/intellimation/config_intellimation.py:158-160 | splitting a join of separator-free pieces gives the pieces back |
| Strs.SplitNoSep | config_generators/src/volttron/haystack/parser/driver/intellimation/config_intellimation.py:158-160 | a string without the separator splits into itself |
| Strs.LastAfterShape | config_generators/src/volttron/haystack/parser/ilc/json/config_from_json.py:85-88 | the last piece after any separator is a separator-free suffix, and the longest one |
| Strs.LastAfterUnique | config_generators/src/volttron/haystack/parser/ilc/json/config_from_json.py:85-88 | any separator-free suffix preceded by a separator (or the whole string) is that last piece |
| Strs.LastAfterTwice | config_generators/src/volttron/haystack/parser/ilc/json/config_from_json.py:85-88 | taking the last piece for one separator set and then another is taking it for both |
| Strs.LastAfterIsLastSplit | config_generators/src/volttron/haystack/parser/driver/intellimation/config_intellimation.py:158-160 | `s.split(c)[-1]` is the last piece after `c` |
| Strs.LastOfJoin | config_generators/src/volttron/haystack/parser/driver/intellimation/config_intellimation.py:158-160 | the last piece of a split is a suffix preceded by the separator unless it is the whole string |
| Strs.FirstBeforeShape | config_generators/src/volttron/haystack/parser/driver/intellimation/config_intellimation.py:124 | `split(c)[0]` is a prefix free of `c`, followed by `c` unless it is the whole string |
| Strs.FirstBeforeIsFirstSplit | config_generators/src/volttron/haystack/parser/driver/intellimation/config_intellimation.py:124 | everything before the first `c` is `split(c)[0]` |
| Strs.ReplaceAbsent | config_generators/src/volttron/haystack/parser/ilc/config_base.py:377-390 | `str.replace` leaves a string without the pattern alone |
| Strs.ReplaceSame | config_generators/src/volttron/haystack/parser/ilc/config_base.py:377-390 | replacing a pattern by itself changes nothing |
| Names.NameFromIdShape | config_generators/src/volttron/haystack/parser/driver/intellimation/config_intellimation.py:158-160 | `get_name_from_id` is the suffix after the last `.` and holds no `.` |
| Names.NameFromIdIsLastSplit | config_generators/src/volttron/haystack/parser/driver/intellimation/config_intellimation.py:158-160 | `get_name_from_id` is the last piece of `id.split(".")` |
| Names.LastSegmentShape | config_generators/src/volttron/haystack/parser/airsidercx/json/config_from_json.py:55-58 | the RCx JSON point name is the suffix after the last `/` and holds no `/` |
| Names.PointNameFromTopicSpec | config_generators/src/volttron/haystack/parser/ilc/json/config_from_json.py:85-88 | `get_point_name_from_topic` is a suffix of the topic holding none of `/ . \| :`, the longest one; `""` gives `""` |
| Names.PointNameIsLastAfter | config_generators/src/volttron/haystack/parser/ilc/intellimation/config_intellimation.py:113-115 | the point name is the last piece for the four separators at once |
| Names.PointNameFromTopicUnique | src/volttron/haystack/parser/airsidercx/json/config_from_json.py:69-72 | any suffix of that shape is the point name |
| Names.SegmentAt | src/volttron/haystack/parser/driver/json/config_from_json.py:72-76 | `topic.split("/")[index]` is a `/`-free piece, or the `IndexError` |
| Names.DigitsEndShape | config_generators/src/volttron/haystack/parser/driver/intellimation/config_intellimation.py:110-125 | the run of digits ends at the end of text or at a non-digit |
| Names.BracketAtIsRegexMatch | config_generators/src/volttron/haystack/parser/driver/intellimation/config_intellimation.py:110-125 | a bracket match is `[`, one or more digits, `]`, as `\[\d+\]` matches |
| Names.FindBracketSpec | config_generators/src/volttron/haystack/parser/driver/intellimation/config_intellimation.py:110-125 | `re.search(r"\[\d+\]")` finds no match, or the leftmost one |
| Names.ObjectNameWithoutAttr | config_generators/src/volttron/haystack/parser/driver/intellimation/config_intellimation.py:110-125 | without `attr_prop_object_name` in the query the object name is `""` |
| Names.ObjectNameOfAhuFails | config_generators/src/volttron/haystack/parser/driver/intellimation/config_intellimation.py:110-120 | an AHU object name is a `ValueError` exactly when the last segment has no `[digits]` |
| Names.ObjectNameOfAhu | config_generators/src/volttron/haystack/parser/driver/intellimation/config_intellimation.py:110-120 | otherwise it is the leftmost `[digits]` with its brackets turned into parentheses |
| Names.BracketMatchName | config_generators/src/volttron/haystack/parser/driver/intellimation/config_intellimation.py:119-120 | turning the brackets of a match into parentheses gives `(digits)` |
| Names.ObjectNameOfOther | src/volttron/haystack/parser/driver/intellimation/config_intellimation.py:59-74 | any other object name is the last segment up to its first `:` |
| Names.ObjectNameFromTopicSpec | src/volttron/haystack/parser/driver/json/config_from_json.py:100-115 | the object name fails only for an AHU |
| Names.FormatQueryNoPlaceholder | config_generators/src/volttron/haystack/parser/driver/intellimation/config_intellimation.py:150-153 | a query with neither placeholder is left as it is by `format` |
| Names.SiteCampus | config_generators/src/volttron/haystack/parser/driver/config_base.py:27-30 | `site_id.split(".")[-2]` exists exactly when the site id has a `.` |
| Names.Location | src/volttron/haystack/parser/driver/config_base.py:26-29 | building and campus are the configured values or the last two `.` pieces of the site id; a dotless site id is an `IndexError` |
| Names.LocationFromSite | src/volttron/haystack/parser/airsidercx/base/config_base.py:28-34 | derived campus and building are how the site id ends: `campus.building` |
| Topics.DriverTopicPrefixSpec | config_generators/src/volttron/haystack/parser/driver/config_base.py:32-41 | the driver prefix always ends in `/`; a configured prefix is kept; the default is `devices[/campus][/building]/` |
| Topics.DriverTopicPrefixBoth | src/volttron/haystack/parser/driver/config_base.py:31-42 | a campus and a building give `devices/campus/building/` |
| Topics.WithSlashSpec | config_generators/src/volttron/haystack/parser/driver/config_base.py:40-41 | a `/` is added exactly when the prefix does not end in one |
| Topics.IlcTopicPrefixSpec | config_generators/src/volttron/haystack/parser/ilc/config_base.py:36-37 | the ILC prefix is `""` whenever the building is empty, even with a campus; `campus/building/` or `building/` otherwise |
| Json.RecordIfAbsentSpec | config_generators/src/volttron/haystack/parser/ilc/config_base.py:257-264 | a "create if absent" write adds the id and touches no other record; an existing non-empty record is kept, otherwise the new one is stored; once non-empty it survives a second write (first writer wins); writes for distinct ids commute |
| Json.MarkSpec | config_generators/src/volttron/haystack/parser/driver/intellimation/config_intellimation.py:100-104 | `if not t.get(id): t[id] = {}` then field writes: only that record changes, keeping its other fields |
| Json.Overwrite | config_generators/src/volttron/haystack/parser/airsidercx/config_base.py:179-188 | every listed id ends with the record; every other record is untouched |
| Json.RecordIfAbsentCommute | config_generators/src/volttron/haystack/parser/ilc/config_base.py:257-264 | "create if absent" writes for two different ids give the same table in either order |
| Json.ExitStatusMonotone | config_generators/src/volttron/haystack/parser/driver/config_base.py:100-109 | recording any equipment forces exit status 1, and a table that only gains ids never drops the status from 1 to 0 |
| ODicts.GetSome | src/volttron/haystack/parser/driver/config_base.py:95-99 | a key is present exactly when it is one of the keys |
| ODicts.PutSpec | src/volttron/haystack/parser/driver/config_base.py:95-99 | `d[k] = v` maps `k` to `v`, keeps every other key, appends a new key at the end and keeps keys unique |
| ODicts.PutAllKeys | src/volttron/haystack/parser/driver/json/config_from_json.py:72-95 | a loop of writes adds exactly the written keys |
| ODicts.PutAllLast | src/volttron/haystack/parser/driver/json/config_from_json.py:72-95 | the last write to a key wins; an unwritten key keeps its value |
| ODicts.KeysAppend | src/volttron/haystack/parser/driver/intellimation/config_intellimation.py:90-106 | the keys of two dictionaries written one after the other |
| ODicts.GetAppend | src/volttron/haystack/parser/driver/intellimation/config_intellimation.py:90-106 | a lookup in two dictionaries written one after the other |
| Rows.TopicQueryFirst | src/volttron/haystack/parser/airsidercx/intellimation/config_intellimation.py:69-79 | a point query is empty exactly when no row matches, else it starts with the first match |
| Rows.TopicQueryOne | config_generators/src/volttron/haystack/parser/ilc/intellimation/config_intellimation.py:96-100 | a query matched by exactly one row returns its topic alone |
| Rows.TopicQueryTwo | config_generators/src/volttron/haystack/parser/ilc/intellimation/config_intellimation.py:101-109 | two matching rows give at least two topics |
| Rows.TopicQuerySingle | config_generators/src/volttron/haystack/parser/ilc/intellimation/config_intellimation.py:96-100 | a one-topic result has exactly one matching row |
| Folds.FoldOk | config_generators/src/volttron/haystack/parser/ilc/config_base.py:227-295 | a loop whose step never fails never fails |
| Folds.FoldHistory | config_generators/src/volttron/haystack/parser/ilc/config_base.py:227-295 | an invariant of the prefix seen so far holds after the loop |
| Folds.FoldLast | config_generators/src/volttron/haystack/parser/ilc/config_base.py:227-295 | a fact the `i`-th step establishes and no later step undoes holds after the loop |
| Folds.FoldAppend | config_generators/src/volttron/haystack/parser/ilc/config_base.py:227-295 | a loop over two parts is the second loop from where the first ended |
| Collapse.SetToList | config_generators/src/volttron/haystack/parser/airsidercx/config_base.py:189-190 | `list(set)` lists every element once, in an order left open |
| Collapse.ListOf | config_generators/src/volttron/haystack/parser/airsidercx/config_base.py:189-190 | the list branch lists exactly the distinct elements |
| Collapse.Pop | config_generators/src/volttron/haystack/parser/airsidercx/config_base.py:191-193 | `set.pop()` of a singleton is its element |
| Collapse.CollapseSet | config_generators/src/volttron/haystack/parser/airsidercx/config_base.py:175-193 | empty set gives `""`, one element that element, more a list of exactly the distinct elements |
| Collapse.CollapseOrPop | src/volttron/haystack/parser/airsidercx/intellimation/config_intellimation.py:130-134 | more than one element gives the list; otherwise `pop`, a `KeyError` on an empty set |
| Comments.StripCommentsNotLonger | src/volttron/haystack/parser/airsidercx/base/config_base.py:94-107 | stripping only deletes: the output is never longer than the input |
| Comments.StripCommentsPlain | src/volttron/haystack/parser/airsidercx/base/config_base.py:6-8 | text with no quote, `/` or `#` comes back unchanged |
| Comments.QuoteEndWellQuoted | src/volttron/haystack/parser/airsidercx/base/config_base.py:7 | `(?:\\?.)*?\2` matches a well-formed quoted body up to its own closing quote |
| Comments.StripKeepsQuoted | src/volttron/haystack/parser/airsidercx/base/config_base.py:94-99 | a well-formed quoted string is kept verbatim, comment markers inside it too |
| Comments.StripHashComment | src/volttron/haystack/parser/airsidercx/base/config_base.py:7-8 | a `#` comment outside quotes is deleted up to, not including, the next newline or the end |
| Comments.StripSlashComment | src/volttron/haystack/parser/airsidercx/base/config_base.py:7-8 | the same for a `//` comment |
| Comments.StripBlockComment | src/volttron/haystack/parser/airsidercx/base/config_base.py:7-8 | a `/* ... */` block is deleted up to its first `*/`, across newlines |
| Comments.StripUnterminatedBlock | src/volttron/haystack/parser/airsidercx/base/config_base.py:7-8 | an unterminated `/*` is left in place |
| Tokens.ApplyTokensSnoc | config_generators/src/volttron/haystack/parser/ilc/config_base.py:377-390 | the replacements run in list order: the last token is replaced last |
| Tokens.ApplyTokensNoToken | src/volttron/haystack/parser/ilc/config_base.py:293-305 | a string holding no token comes back unchanged |
| Tokens.ApplyTokensIdentity | config_generators/src/volttron/haystack/parser/ilc/config_base.py:377-390 | mapping every token to itself changes nothing |
| Tokens.ReplaceInListSpec | src/volttron/haystack/parser/ilc/config_base.py:293-305 | the list branch succeeds exactly when every item is a string and every token mapped (or there are no tokens); it keeps the length and rewrites item by item |
| Tokens.ReplacePointNames | config_generators/src/volttron/haystack/parser/ilc/config_base.py:377-390 | the method computes `replace_point_names`: the string branch by its loop, the list branch item by item |
| Tokens.ReplaceAll | config_generators/src/volttron/haystack/parser/ilc/config_base.py:382-384 | the token loop on one string, with `KeyError` at the first unmapped token |
| Tokens.ReplaceItems | config_generators/src/volttron/haystack/parser/ilc/config_base.py:385-389 | the list loop builds `new_list` from the rewritten items |
| Tokens.SortByLenSpec | config_generators/src/volttron/haystack/parser/ilc/config_base.py:275 | `sort(key=len)` orders by non-decreasing length, is a permutation, and keeps equal-length tokens in order |
| Tokens.ShortestFirstShadows | config_generators/src/volttron/haystack/parser/ilc/config_base.py:273-275 | the shortest token goes first: a shorter token that is a prefix of a longer one rewrites it first |
| Tokens.CriteriaTokenOrder | src/volttron/haystack/parser/ilc/config_base.py:219-224 | the src criteria tokens sort to MaxAirFlow, ZoneAirFlow, MinimumAirFlow, ZoneTemperature, ZoneCoolingTemperatureSetPoint |
| Drivers.WithQuery | config_generators/src/volttron/haystack/parser/driver/intellimation/config_intellimation.py:142-155 | the copy equals the template with only `driver_config.query` changed |
| Drivers.WithQueryFrame | src/volttron/haystack/parser/driver/config_from_json.py:121-129 | every other field of the copy, at both levels, is the template's |
| Drivers.WithOwnQuery | src/volttron/haystack/parser/driver/intellimation/config_intellimation.py:108-116 | setting the query a template already has gives the template back |
| Drivers.FormattedSpec | config_generators/src/volttron/haystack/parser/driver/intellimation/config_intellimation.py:150-154 | with both values the query is substituted; with neither, a query the guard lets through is unchanged |
| Drivers.DriverSetup | src/volttron/haystack/parser/driver/config_base.py:26-42 | the driver prefix from the site id and configuration, or the `IndexError` of a dotless site id |
| Drivers.DriverSetupFromSite | src/volttron/haystack/parser/driver/config_base.py:26-42 | a site id `a.b.site` gives the prefix `devices/b/site/` |
| Drivers.KeptLen | config_generators/src/volttron/haystack/parser/driver/config_base.py:118-133 | one `driver_vip` entry per truthy config |
| Drivers.KeptAt | config_generators/src/volttron/haystack/parser/driver/config_base.py:118-133 | each present config's entry follows those of the present configs before it |
| Drivers.CgPathInjective | config_generators/src/volttron/haystack/parser/driver/config_base.py:92-97 | in the configs/errors layout two AHU names are written to the same path exactly when they are equal (empty name = unmapped VAVs file) |
| Drivers.SrcPathShared | src/volttron/haystack/parser/driver/config_base.py:75-80 | in the single-directory layout two AHU names share a path exactly when equal, or when both are among the empty name and `unmapped_vavs` (that AHU overwrites the unmapped-VAVs file) |
| DriverCg.GroupKeys | config_generators/src/volttron/haystack/parser/driver/intellimation/config_intellimation.py:54-55 | the keys of an AHU → VAVs result, one per group, in order |
| DriverCg.DeviceLookupSpec | config_generators/src/volttron/haystack/parser/driver/intellimation/config_intellimation.py:89-106 | the lookup fails exactly when there is no point row, or an AHU topic has no `[digits]` while the query wants an object name; a success carries the first row |
| DriverCg.ConfigNone | config_generators/src/volttron/haystack/parser/driver/intellimation/config_intellimation.py:139-149 | the config is `None` exactly when the query has a placeholder and the lookup failed |
| DriverCg.ConfigFound | config_generators/src/volttron/haystack/parser/driver/intellimation/config_intellimation.py:150-155 | after a successful lookup the config is the template with only the query substituted |
| DriverCg.ConfigUnneeded | config_generators/src/volttron/haystack/parser/driver/intellimation/config_intellimation.py:150-155 | after a failed lookup the query does not need, the config is the template itself |
| DriverCg.ConfigTableFailed | config_generators/src/volttron/haystack/parser/driver/intellimation/config_intellimation.py:143-148 | a failed config leaves a record with its type and the parse error |
| DriverCg.ConfigTableLookupFailed | config_generators/src/volttron/haystack/parser/driver/intellimation/config_intellimation.py:102-106 | a failed lookup that the query does not need still leaves its message |
| DriverCg.ConfigTableFound | config_generators/src/volttron/haystack/parser/driver/intellimation/config_intellimation.py:91-93 | a successful lookup only adds the topic to an existing VAV record |
| DriverCg.ConfigTableFrame | config_generators/src/volttron/haystack/parser/driver/intellimation/config_intellimation.py:76-156 | no record is removed and only the equipment's own record changes |
| DriverCg.VavTopicsAt | config_generators/src/volttron/haystack/parser/driver/config_base.py:121-126 | each VAV topic is `prefix + ahu + "/" + vav`, or `prefix + vav` without an AHU id |
| DriverCg.VavConfigsAt | config_generators/src/volttron/haystack/parser/driver/config_base.py:126-129 | each VAV's config is `generate_config_from_template(vav, "vav")` |
| DriverCg.VavEntriesKept | config_generators/src/volttron/haystack/parser/driver/config_base.py:124-132 | the VAV entries are the present configs under their topics, in VAV order |
| DriverCg.AhuEntriesSpec | config_generators/src/volttron/haystack/parser/driver/config_base.py:111-133 | the AHU entry (topic `prefix + ahu`) comes first exactly when the AHU has an id and a config; then the VAV entries, one per VAV with a config |
| DriverCg.AhuEntriesAt | config_generators/src/volttron/haystack/parser/driver/config_base.py:118-133 | the position of each VAV entry after the AHU's |
| DriverCg.AhuTableFrame | config_generators/src/volttron/haystack/parser/driver/config_base.py:111-133 | the table only grows, and only records of the AHU and its VAVs change |
| DriverCg.OutputsAt | config_generators/src/volttron/haystack/parser/driver/config_base.py:88-97 | every AHU of the result is written, in order, to its own file exactly when its name is non-empty |
| DriverCg.OutputsTableGrows | config_generators/src/volttron/haystack/parser/driver/config_base.py:100-109 | no record is ever removed, so an orphan VAV makes the run exit with 1 |
| DriverCg.AhuAndVavsIntro | config_generators/src/volttron/haystack/parser/driver/intellimation/config_intellimation.py:34-74 | the grouping is the mapped groups, then AHUs without VAVs, then one `("", orphans)` group |
| DriverCg.IntellimationDriver.constructor | config_generators/src/volttron/haystack/parser/driver/config_base.py:14-60 | the generator starts from its setup with an empty unmapped table |
| DriverCg.IntellimationDriver.GetAhuAndVavs | config_generators/src/volttron/haystack/parser/driver/intellimation/config_intellimation.py:34-74 | mapped groups; AHUs without VAVs only when there are more AHUs than groups; orphans under `""`, each recorded "Unable to find ahuRef" |
| DriverCg.IntellimationDriver.AhusWithoutVavs | config_generators/src/volttron/haystack/parser/driver/intellimation/config_intellimation.py:54-56 | appends each AHU that is not a group key exactly once with `[]` |
| DriverCg.IntellimationDriver.MarkOrphans | config_generators/src/volttron/haystack/parser/driver/intellimation/config_intellimation.py:71-72 | every orphan VAV gets `{"type": "vav", "error": "Unable to find ahuRef"}` |
| DriverCg.IntellimationDriver.QueryDeviceIdName | config_generators/src/volttron/haystack/parser/driver/intellimation/config_intellimation.py:76-108 | the device lookup result and the table it leaves |
| DriverCg.IntellimationDriver.GenerateConfigFromTemplate | config_generators/src/volttron/haystack/parser/driver/intellimation/config_intellimation.py:139-156 | the config of one equipment and the table it leaves |
| DriverCg.IntellimationDriver.AhuHeadConfig | config_generators/src/volttron/haystack/parser/driver/config_base.py:114-120 | the AHU name and its own entry |
| DriverCg.IntellimationDriver.GenerateAhuConfigs | config_generators/src/volttron/haystack/parser/driver/config_base.py:111-133 | the AHU name, the entries of `driver_vip` and the table |
| DriverCg.IntellimationDriver.VavConfigsLoop | config_generators/src/volttron/haystack/parser/driver/config_base.py:124-132 | the VAV entries and the table the VAV loop leaves |
| DriverCg.IntellimationDriver.VavConfig | config_generators/src/volttron/haystack/parser/driver/config_base.py:125-132 | one VAV's entry appended when its config is present |
| DriverCg.IntellimationDriver.GenerateAhuOutput | config_generators/src/volttron/haystack/parser/driver/config_base.py:89-97 | what one AHU writes |
| DriverCg.IntellimationDriver.GenerateConfigs | config_generators/src/volttron/haystack/parser/driver/config_base.py:82-109 | the outputs for the grouping in order, and exit status 1 exactly when the table is non-empty |
| DriverSrcDb.QueryDeviceIdNameSpec | src/volttron/haystack/parser/driver/intellimation/config_intellimation.py:44-74 | `None` exactly without a point row; an error exactly when an AHU topic has no `[digits]` in its last segment and the query asks for an object name; otherwise the row's device name and the topic's object name |
| DriverSrcDb.ConfigForSpec | src/volttron/haystack/parser/driver/intellimation/config_intellimation.py:108-116 | a config exists exactly when the lookup finds a row and a name; it is the template with only its query substituted |
| DriverSrcDb.Configs | src/volttron/haystack/parser/driver/intellimation/config_intellimation.py:90-106 | on success, one config per VAV |
| DriverSrcDb.ConfigsSpec | src/volttron/haystack/parser/driver/intellimation/config_intellimation.py:102-105 | the VAV configs succeed exactly when every one does, and the i-th is that VAV's config |
| DriverSrcDb.ConfigsOk | src/volttron/haystack/parser/driver/intellimation/config_intellimation.py:102-105 | the VAV configs succeed exactly when every one does |
| DriverSrcDb.ConfigsValues | src/volttron/haystack/parser/driver/intellimation/config_intellimation.py:102-105 | on success the i-th config is that of the i-th VAV |
| Drivers.AhuVavTopicsSpec | src/volttron/haystack/parser/driver/intellimation/config_intellimation.py:102-104 | every VAV topic starts with the AHU topic `prefix + ahu + "/"` and continues with the VAV short name; two VAVs share a topic exactly when they share a short name |
| DriverSrcDb.AhuMapperSpec | src/volttron/haystack/parser/driver/intellimation/config_intellimation.py:90-106 | the mapper fails exactly when the AHU or some VAV has no config; its keys are the AHU topic and the VAV topics, each once; the AHU topic holds the AHU's config and each VAV topic that of the last VAV with that topic |
| DriverSrcDb.ConfigsPrefixErr | src/volttron/haystack/parser/driver/intellimation/config_intellimation.py:102-105 | a failure among the first VAVs is a failure of the whole loop |
| DriverSrcDb.ConfigsStep | src/volttron/haystack/parser/driver/intellimation/config_intellimation.py:102-105 | one more VAV adds its config, or fails with its error |
| DriverSrcDb.GenerateAhuConfigs | src/volttron/haystack/parser/driver/intellimation/config_intellimation.py:90-106 | the loop filling `final_mapper` gives the AHU name and the mapper of the definition, failing exactly when it does |
| DriverSrcFlat.GroupRowsOk | src/volttron/haystack/parser/driver/config_from_json.py:46-52 | the grouping fails exactly when a row whose last id part contains "vav" has no `ahuRef`; otherwise `vav_list` grows by the VAV ids |
| DriverSrcFlat.GroupRowsBuckets | src/volttron/haystack/parser/driver/config_from_json.py:46-52 | each key holds, in row order, the ids of the VAVs naming it, and only named AHUs are keys |
| DriverSrcFlat.AhuAndVavsKeys | src/volttron/haystack/parser/driver/config_from_json.py:53 | `ahu_list` gains exactly the keys of the result, each once |
| DriverSrcFlat.GroupRowsUnique | src/volttron/haystack/parser/driver/config_from_json.py:45-51 | the result has no key twice |
| DriverSrcFlat.GroupPrefixErr | src/volttron/haystack/parser/driver/config_from_json.py:46-52 | a failing row stops the whole grouping |
| DriverSrcFlat.LoadStepSpec | src/volttron/haystack/parser/driver/config_from_json.py:62-82 | a point row passes exactly when it loads; it sets its equipment's device id and name when it sets a device, and changes nothing else |
| DriverSrcFlat.LoadOk | src/volttron/haystack/parser/driver/config_from_json.py:61-82 | loading fails exactly when some row does not load, and keeps the lists |
| DriverSrcFlat.LoadLastWins | src/volttron/haystack/parser/driver/config_from_json.py:65-82 | the last row that sets an equipment decides its device id (topic segment 4) and object name |
| DriverSrcFlat.LoadUntouched | src/volttron/haystack/parser/driver/config_from_json.py:65-82 | an equipment no row sets keeps what the maps held |
| DriverSrcFlat.LoadPrefixErr | src/volttron/haystack/parser/driver/config_from_json.py:62-82 | a failing row stops the whole load |
| DriverSrcFlat.LookupFirst | src/volttron/haystack/parser/driver/config_from_json.py:57-84 | the first lookup gives the values of the last row that set the equipment, and raises for an equipment no row set |
| DriverSrcFlat.LastSetting | src/volttron/haystack/parser/driver/config_from_json.py:62-82 | given a row that sets an equipment, there is a last one |
| DriverSrcFlat.LookupCached | src/volttron/haystack/parser/driver/config_from_json.py:59-84 | once loaded, a lookup only reads the maps |
| DriverSrcFlat.CfgSpec | src/volttron/haystack/parser/driver/config_from_json.py:121-129 | a config is the template with only its query substituted, and fails exactly when the lookup does |
| DriverSrcFlat.Cfgs | src/volttron/haystack/parser/driver/config_from_json.py:114-118 | on success, one config per VAV |
| DriverSrcFlat.CfgsAt | src/volttron/haystack/parser/driver/config_from_json.py:114-118 | the i-th VAV config is generated in the state the earlier ones left |
| DriverSrcFlat.AhuMapperSpec | src/volttron/haystack/parser/driver/config_from_json.py:104-119 | the keys are the AHU topic and the VAV topics, each once; the AHU topic holds the AHU's config and each VAV topic that of the last VAV with that topic |
| DriverSrcFlat.CfgsPrefixErr | src/volttron/haystack/parser/driver/config_from_json.py:114-118 | a failure among the first VAVs fails the loop |
| DriverSrcFlat.FlatDriver.constructor | src/volttron/haystack/parser/driver/config_from_json.py:36-40 | the generator starts with empty lists and maps |
| DriverSrcFlat.FlatDriver.GetAhuAndVavs | src/volttron/haystack/parser/driver/config_from_json.py:42-55 | the grouping and the new state are those of the definition |
| DriverSrcFlat.FlatDriver.GroupRow | src/volttron/haystack/parser/driver/config_from_json.py:47-52 | one row of the grouping loop |
| DriverSrcFlat.FlatDriver.LoadPoints | src/volttron/haystack/parser/driver/config_from_json.py:61-82 | the loading loop leaves the state of the definition, failing exactly when it does |
| DriverSrcFlat.FlatDriver.LoadRow | src/volttron/haystack/parser/driver/config_from_json.py:63-82 | one point row of the loading loop |
| DriverSrcFlat.FlatDriver.GetNfDeviceIdAndName | src/volttron/haystack/parser/driver/config_from_json.py:57-84 | the lookup's result and new state are those of the definition |
| DriverSrcFlat.FlatDriver.GenerateConfigFromTemplate | src/volttron/haystack/parser/driver/config_from_json.py:121-129 | the config and new state of the definition |
| DriverSrcFlat.FlatDriver.GenerateAhuConfigs | src/volttron/haystack/parser/driver/config_from_json.py:104-119 | the AHU name, mapper and state of the definition |
| DriverSrcFlat.FlatDriver.VavConfig | src/volttron/haystack/parser/driver/config_from_json.py:114-118 | one VAV of the loop |
| DriverSrcJson.GroupRowsLists | src/volttron/haystack/parser/driver/json/config_from_json.py:44-58 | `vav_list` grows by the VAV ids and `ahu_list` by the rows tagged `ahu` but not `vav` |
| DriverSrcJson.GroupRowsBuckets | src/volttron/haystack/parser/driver/json/config_from_json.py:47-54 | each bucket holds, in row order, the VAVs whose truthy `ahuRef` names it (`""` for the rest); only non-empty buckets are keys |
| DriverSrcJson.GroupRowsCount | src/volttron/haystack/parser/driver/json/config_from_json.py:47-54 | the buckets hold as many ids as there are VAV rows |
| DriverSrcJson.GroupRowsUnmapped | src/volttron/haystack/parser/driver/json/config_from_json.py:53-55 | each VAV without a truthy `ahuRef` is recorded "Unable to find ahuRef"; no other record changes |
| DriverSrcJson.AhuListKeys | src/volttron/haystack/parser/driver/json/config_from_json.py:59-61 | every listed AHU is a key of the result, with `[]` when no VAV names it |
| DriverSrcJson.ExtraGet | src/volttron/haystack/parser/driver/json/config_from_json.py:60-61 | an AHU added without VAVs maps to `[]` |
| DriverSrcJson.LoadStepSpec | src/volttron/haystack/parser/driver/json/config_from_json.py:69-95 | one point row loads exactly when it passes, and sets what the definition says |
| DriverSrcJson.LoadOk | src/volttron/haystack/parser/driver/json/config_from_json.py:68-95 | loading fails exactly when some row does not load; the lists and unmapped ids are kept |
| DriverSrcJson.LoadLastWins | src/volttron/haystack/parser/driver/json/config_from_json.py:72-95 | the device id is segment 4 of the topic of the last row that sets it, and the name is derived from that topic; an AHU row whose name does not parse is skipped |
| DriverSrcJson.LoadStepDevices | src/volttron/haystack/parser/driver/json/config_from_json.py:72-89 | a loaded row that sets a device sets only its equipment's id and name |
| DriverSrcJson.LoadUntouched | src/volttron/haystack/parser/driver/json/config_from_json.py:72-95 | an equipment no row sets keeps what the maps held |
| DriverSrcJson.LoadEnriches | src/volttron/haystack/parser/driver/json/config_from_json.py:78-80 | an unmapped VAV's record gets the topic of its last row |
| DriverSrcJson.LoadStepRecords | src/volttron/haystack/parser/driver/json/config_from_json.py:78-80 | a loaded row changes only its own equipment's record |
| DriverSrcJson.LoadPrefixErr | src/volttron/haystack/parser/driver/json/config_from_json.py:69-95 | a failing row stops the whole load |
| DriverSrcJson.LookupUnknown | src/volttron/haystack/parser/driver/json/config_from_json.py:97 | an equipment no point row sets gives `(None, None)` |
| DriverSrcJson.LookupCached | src/volttron/haystack/parser/driver/json/config_from_json.py:66-97 | once something is loaded, a lookup reads the maps and changes nothing |
| DriverSrcJson.LookupFound | src/volttron/haystack/parser/driver/json/config_from_json.py:64-97 | on the first lookup, the device id and name are those of the last row that sets them |
| DriverSrcJson.CfgSpec | src/volttron/haystack/parser/driver/json/config_from_json.py:117-135 | no config exactly when a placeholder lacks its value, and then the record names its type, topic and the parse error; otherwise the template with only its query substituted; a missing topic raises |
| DriverSrcJson.Cfgs | src/volttron/haystack/parser/driver/config_base.py:95-99 | on success, one config per VAV |
| DriverSrcJson.VavTopicsOf | src/volttron/haystack/parser/driver/config_base.py:91-97 | the i-th VAV topic is `prefix + ahu + "/" + name(vav_i)`, or `prefix + name(vav_i)` without an AHU id |
| DriverSrcJson.CfgsAt | src/volttron/haystack/parser/driver/config_base.py:95-99 | the i-th VAV config is generated in the state the earlier ones left |
| DriverSrcJson.AhuMapperKeys | src/volttron/haystack/parser/driver/config_base.py:82-100 | the keys are the AHU topic (for a non-empty AHU id) and the VAV topics, each once |
| DriverSrcJson.AhuMapperAhu | src/volttron/haystack/parser/driver/config_base.py:88-90 | a non-empty AHU id puts the AHU's config under the AHU topic, which no VAV topic overwrites |
| DriverSrcJson.AhuMapperVav | src/volttron/haystack/parser/driver/config_base.py:95-99 | a VAV topic holds the config of the last VAV with that topic |
| DriverSrcJson.CfgsPrefixErr | src/volttron/haystack/parser/driver/config_base.py:95-99 | a failure among the first VAVs fails the loop |
| DriverSrcJson.Outputs | src/volttron/haystack/parser/driver/config_base.py:67-80 | on success, one file per AHU |
| DriverSrcJson.OutputsStep | src/volttron/haystack/parser/driver/config_base.py:73-80 | one more AHU adds its file, or fails with its error |
| DriverSrcJson.OutputsAt | src/volttron/haystack/parser/driver/config_base.py:73-80 | the i-th file is named after the i-th AHU (`unmapped_vavs` for an empty name) and holds its mapper |
| DriverSrcJson.OutputsPrefixErr | src/volttron/haystack/parser/driver/config_base.py:73-80 | a failing AHU fails the run |
| DriverSrcJson.Empties | src/volttron/haystack/parser/driver/json/config_from_json.py:60-61 | the added AHUs, each with `[]` |
| DriverSrcJson.EmptiesKeys | src/volttron/haystack/parser/driver/json/config_from_json.py:60-61 | the keys of the added entries are the added AHUs |
| DriverSrcJson.JsonAhuAndVavsIntro | src/volttron/haystack/parser/driver/json/config_from_json.py:59-62 | the buckets followed by the missing AHUs with `[]` are a result of `get_ahu_and_vavs` |
| DriverSrcJson.AccessRowsSpec | src/volttron/haystack/parser/driver/json/config_from_json.py:44-58 | the grouping loop raises AttributeError exactly when it meets a VAV row without `vav_list`, a VAV row without truthy `ahuRef` without the unmapped table, or an AHU row without `ahu_list` |
| DriverSrcJson.GetAhuAndVavsAsWrittenSpec | src/volttron/haystack/parser/driver/json/config_from_json.py:40-62 | `get_ahu_and_vavs` raises AttributeError exactly when `ahu_list` is missing or the loop needs a missing attribute |
| DriverSrcJson.AsWrittenAlwaysRaises | src/volttron/haystack/parser/driver/json/config_from_json.py:23-62 | on the object `__init__` leaves, `get_ahu_and_vavs` raises AttributeError for every equipment document, even one without rows |
| DriverSrcJson.FixedNeverRaises | src/volttron/haystack/parser/driver/json/config_from_json.py:40-62 | with the three attributes started empty, `get_ahu_and_vavs` never raises |
| DriverSrcJson.JsonDriver.constructor | src/volttron/haystack/parser/driver/json/config_from_json.py:23-38 | the generator starts with the three empty device maps of the source, and also with `vav_list`, `ahu_list` and the unmapped table empty, which the source omits (see Findings) |
| DriverSrcJson.JsonDriver.GetAhuAndVavs | src/volttron/haystack/parser/driver/json/config_from_json.py:40-62 | the grouping is a `JsonAhuAndVavs` result, and the new state is that of the definition |
| DriverSrcJson.JsonDriver.GroupRow | src/volttron/haystack/parser/driver/json/config_from_json.py:45-58 | one row of the grouping loop |
| DriverSrcJson.JsonDriver.AddAhusWithoutVavs | src/volttron/haystack/parser/driver/json/config_from_json.py:59-61 | each missing AHU is added once with `[]` |
| DriverSrcJson.JsonDriver.LoadPoints | src/volttron/haystack/parser/driver/json/config_from_json.py:68-95 | the loading loop leaves the state of the definition, failing exactly when it does |
| DriverSrcJson.JsonDriver.LoadRow | src/volttron/haystack/parser/driver/json/config_from_json.py:70-95 | one point row of the loading loop |
| DriverSrcJson.JsonDriver.GetNfDeviceIdAndName | src/volttron/haystack/parser/driver/json/config_from_json.py:64-97 | the lookup's result and new state are those of the definition |
| DriverSrcJson.JsonDriver.GenerateConfigFromTemplate | src/volttron/haystack/parser/driver/json/config_from_json.py:117-135 | the config and new state of the definition |
| DriverSrcJson.JsonDriver.GenerateAhuConfigs | src/volttron/haystack/parser/driver/config_base.py:82-100 | the AHU name, mapper and state of the definition |
| DriverSrcJson.JsonDriver.AhuConfig | src/volttron/haystack/parser/driver/config_base.py:87-90 | the AHU entry |
| DriverSrcJson.JsonDriver.VavConfig | src/volttron/haystack/parser/driver/config_base.py:95-99 | one VAV of the loop |
| DriverSrcJson.JsonDriver.GenerateConfigs | src/volttron/haystack/parser/driver/config_base.py:67-80 | the files of the definition for the grouping, in order |
| DriverSrcJson.JsonDriver.GenerateAhuOutput | src/volttron/haystack/parser/driver/config_base.py:74-80 | what one AHU writes |
| Econ.Candidates | config_generators/src/volttron/haystack/parser/airside_economizer/intellimation/config_intellimation.py:40-44 | a string role is a one-element candidate list; a list role is used as it is |
| Econ.FlattenedSpec | src/volttron/haystack/parser/airside_economizer/json/config_from_json.py:62-66 | a meta value is of interest exactly when it is a candidate of some point key |
| Econ.GetEntry | src/volttron/haystack/parser/airside_economizer/json/config_from_json.py:94 | with unique keys, `point_meta_map[key]` is the value of that key's entry |
| Econ.MissingSpec | config_generators/src/volttron/haystack/parser/airside_economizer/config_base.py:112-119 | a key is missing exactly when its name is empty; the missing keys keep key order and are distinct; none is missing exactly when every name is non-empty |
| Econ.MissingMembers | config_generators/src/volttron/haystack/parser/airside_economizer/config_base.py:114-119 | a key is missing exactly when its name is empty |
| Econ.MissingNone | config_generators/src/volttron/haystack/parser/airside_economizer/config_base.py:121 | no key is missing exactly when every name is non-empty |
| Econ.MissingDistinct | config_generators/src/volttron/haystack/parser/airside_economizer/config_base.py:114-119 | for distinct keys the missing keys are distinct |
| Econ.FoundSpec | config_generators/src/volttron/haystack/parser/airside_economizer/config_base.py:114-117 | for distinct keys, every key with a name holds it, and no other key is written |
| Econ.FoundValues | config_generators/src/volttron/haystack/parser/airside_economizer/config_base.py:116-117 | every key with a non-empty name holds that name |
| Econ.FoundKeys | config_generators/src/volttron/haystack/parser/airside_economizer/config_base.py:116-117 | only keys with a non-empty name are written |
| Econ.MissingSnoc | config_generators/src/volttron/haystack/parser/airside_economizer/config_base.py:114-119 | one more key joins the missing keys exactly when its name is empty |
| Econ.SetPointAssemble | config_generators/src/volttron/haystack/parser/airside_economizer/config_base.py:117 | writing one more point into an assembled config is assembling with that point added |
| Econ.ConfigStep | config_generators/src/volttron/haystack/parser/airside_economizer/config_base.py:114-119 | one key of the loop: a non-empty name is written, an empty one joins the missing keys |
| Econ.AhuConfigSpec | config_generators/src/volttron/haystack/parser/airside_economizer/config_base.py:105-117 | the config is a truthy copy of the template whose unit is exactly the AHU with no subdevices; keys with a name hold it, other points keep the template's value |
| Econ.OutcomeSpec | config_generators/src/volttron/haystack/parser/airside_economizer/config_base.py:121-127 | a config exactly when no key is missing, with the table unchanged; otherwise only the AHU's record changes, listing the missing keys and the AHU's topics |
| Econ.AhuIdOf | config_generators/src/volttron/haystack/parser/airside_economizer/config_base.py:83-87 | a string element is its own id; a row's id is its first column, an error without columns |
| Econ.FilesSpec | config_generators/src/volttron/haystack/parser/airside_economizer/config_base.py:88-92 | every file comes from an output with a truthy config, and every such output gives `<ahu>.json` |
| Econ.FilesSnoc | config_generators/src/volttron/haystack/parser/airside_economizer/config_base.py:90-92 | one more output adds its file exactly when its config is truthy |
| EconCgDb.SetupOf | config_generators/src/volttron/haystack/parser/airside_economizer/config_base.py:24-44 | building and campus from the site id when not configured, and the template's `device` entry |
| EconCgDb.ForTopicSpec | config_generators/src/volttron/haystack/parser/airside_economizer/intellimation/config_intellimation.py:52-70 | the topic is that of the first candidate with a non-empty topic, which is the one tried last; with none the topic is empty and the last candidate was tried |
| EconCgDb.ForTopicEmpty | config_generators/src/volttron/haystack/parser/airside_economizer/intellimation/config_intellimation.py:52-70 | the topic is empty exactly when every candidate's is |
| EconCgDb.FirstNonEmpty | config_generators/src/volttron/haystack/parser/airside_economizer/intellimation/config_intellimation.py:56-69 | a candidate with a topic gives a first such candidate |
| EconCgDb.Choices | config_generators/src/volttron/haystack/parser/airside_economizer/intellimation/config_intellimation.py:39-50 | one chosen candidate and topic per key |
| EconCgDb.RecordFrame | config_generators/src/volttron/haystack/parser/airside_economizer/intellimation/config_intellimation.py:47-49 | recording keeps every other equipment's entry, and creates this one's |
| EconCgDb.RecordLast | config_generators/src/volttron/haystack/parser/airside_economizer/intellimation/config_intellimation.py:49 | a choice no later one overwrites stays recorded |
| EconCgDb.RecordUntouched | config_generators/src/volttron/haystack/parser/airside_economizer/intellimation/config_intellimation.py:49 | a meta value no choice names keeps what it held |
| EconCgDb.KeyNames | config_generators/src/volttron/haystack/parser/airside_economizer/intellimation/config_intellimation.py:90-93 | one name per key |
| EconCgDb.KeyNamesSpec | config_generators/src/volttron/haystack/parser/airside_economizer/intellimation/config_intellimation.py:39-93 | each name is the name part of its key's chosen topic; the lookups keep the unmapped table and other equipment, and record each key's topic under its chosen candidate unless a later key chooses the same one |
| EconCgDb.RecordSnoc | config_generators/src/volttron/haystack/parser/airside_economizer/intellimation/config_intellimation.py:47-49 | recording one more choice |
| EconCgDb.ChoicesSnoc | config_generators/src/volttron/haystack/parser/airside_economizer/intellimation/config_intellimation.py:39-50 | one more key adds its choice |
| EconCgDb.KeyNamesStep | config_generators/src/volttron/haystack/parser/airside_economizer/config_base.py:114-115 | one more key: its name, and its topic recorded |
| EconCgDb.DbNames | config_generators/src/volttron/haystack/parser/airside_economizer/config_base.py:114-115 | one name per key of `point_meta_map` |
| EconCgDb.AhuOutcomeSpec | config_generators/src/volttron/haystack/parser/airside_economizer/config_base.py:105-127 | fails exactly for a template without a point mapping; otherwise the base's outcome with each key's name taken from its chosen topic |
| EconCgDb.AhuOutcomeOf | config_generators/src/volttron/haystack/parser/airside_economizer/config_base.py:112-127 | the outcome once every key's name is known |
| EconCgDb.Runs | config_generators/src/volttron/haystack/parser/airside_economizer/config_base.py:82-88 | on success, one output per AHU row |
| EconCgDb.RunsSpec | config_generators/src/volttron/haystack/parser/airside_economizer/config_base.py:82-88 | the loop fails exactly when some row has no column or, with an AHU row, the template has no point mapping; outputs are the AHUs' short names in order |
| EconCgDb.RunsOk | config_generators/src/volttron/haystack/parser/airside_economizer/config_base.py:82-88 | when the loop fails |
| EconCgDb.RunsNames | config_generators/src/volttron/haystack/parser/airside_economizer/config_base.py:88-107 | the outputs are the AHUs' short names, in order |
| EconCgDb.RunsFront | config_generators/src/volttron/haystack/parser/airside_economizer/config_base.py:82-88 | the loop is its first i AHUs followed by the rest |
| EconCgDb.ThenEnds | config_generators/src/volttron/haystack/parser/airside_economizer/config_base.py:82-88 | nothing left to do adds nothing |
| EconCgDb.ThenThen | config_generators/src/volttron/haystack/parser/airside_economizer/config_base.py:82-88 | putting outputs in front composes |
| EconCgDb.DbEconGenerator.constructor | config_generators/src/volttron/haystack/parser/airside_economizer/config_base.py:35-37 | the generator starts with empty tables |
| EconCgDb.DbEconGenerator.QueryForTopic | config_generators/src/volttron/haystack/parser/airside_economizer/intellimation/config_intellimation.py:52-70 | the query loop gives the candidate and topic of the definition |
| EconCgDb.DbEconGenerator.GetTopicByPointType | config_generators/src/volttron/haystack/parser/airside_economizer/intellimation/config_intellimation.py:39-50 | the topic, recorded under the candidate tried last |
| EconCgDb.DbEconGenerator.GetPointName | config_generators/src/volttron/haystack/parser/airside_economizer/intellimation/config_intellimation.py:90-93 | the name part of the key's topic, and the topic recorded |
| EconCgDb.DbEconGenerator.NextName | config_generators/src/volttron/haystack/parser/airside_economizer/config_base.py:114-115 | the next key's lookup |
| EconCgDb.DbEconGenerator.GenerateAhuConfigs | config_generators/src/volttron/haystack/parser/airside_economizer/config_base.py:105-127 | the short name, config and table of the definition |
| EconCgDb.DbEconGenerator.GenerateConfigs | config_generators/src/volttron/haystack/parser/airside_economizer/config_base.py:78-103 | the files and exit status of the definition: 1 exactly when the table is non-empty |
| EconSrcJson.SetupOf | config_generators/src/volttron/haystack/parser/airside_economizer/config_base.py:24-44 | building and campus from the site id when not configured, and the template's `device` entry |
| EconSrcJson.AhuIdsSpec | src/volttron/haystack/parser/airside_economizer/json/config_from_json.py:44-51 | an id is listed exactly when some `ahu`-tagged row has it |
| EconSrcJson.LoadStepSpec | src/volttron/haystack/parser/airside_economizer/json/config_from_json.py:69-92 | a row fails exactly when it has a meta field but no `.` in its id; a row of an AHU adds it to the point map, and one of interest also to the topic map |
| EconSrcJson.LoadStepSlotsHold | src/volttron/haystack/parser/airside_economizer/json/config_from_json.py:85-92 | every loaded row satisfies `LoadStepSlots` |
| EconSrcJson.LoadStepStores | src/volttron/haystack/parser/airside_economizer/json/config_from_json.py:85-92 | a row of interest stores its topic and name |
| EconSrcJson.LoadStepEnters | src/volttron/haystack/parser/airside_economizer/json/config_from_json.py:81-83 | a row of an AHU makes an entry for it |
| EconSrcJson.LoadOk | src/volttron/haystack/parser/airside_economizer/json/config_from_json.py:68-92 | loading fails exactly when some row fails, and keeps the lists and the unmapped table |
| EconSrcJson.LoadSnoc | src/volttron/haystack/parser/airside_economizer/json/config_from_json.py:68-92 | one more row of the loop |
| EconSrcJson.LoadKeys | src/volttron/haystack/parser/airside_economizer/json/config_from_json.py:81-83 | after loading the point map holds those AHUs it held and those of the rows with a meta field |
| EconSrcJson.LoadLast | src/volttron/haystack/parser/airside_economizer/json/config_from_json.py:85-92 | the last row of interest for an AHU and meta value decides its topic and name |
| EconSrcJson.LoadUntouched | src/volttron/haystack/parser/airside_economizer/json/config_from_json.py:85-92 | a slot no row of interest names keeps what it held |
| EconSrcJson.LoadPrefixErr | src/volttron/haystack/parser/airside_economizer/json/config_from_json.py:69-92 | a failing row stops the whole load |
| EconSrcJson.FirstNamedSpec | src/volttron/haystack/parser/airside_economizer/json/config_from_json.py:99-102 | the result is empty exactly when every candidate's name is; otherwise it is the name of the first that has one |
| EconSrcJson.LookupIsFirstNamed | src/volttron/haystack/parser/airside_economizer/json/config_from_json.py:96-102 | a string role is a list of one candidate |
| EconSrcJson.PointNameAgain | src/volttron/haystack/parser/airside_economizer/json/config_from_json.py:61 | a lookup after a successful one loads nothing more |
| EconSrcJson.KeyNames | config_generators/src/volttron/haystack/parser/airside_economizer/config_base.py:114-115 | on success, one name per key |
| EconSrcJson.Lookups | src/volttron/haystack/parser/airside_economizer/json/config_from_json.py:94-103 | one lookup per key of `point_meta_map` |
| EconSrcJson.KeyNamesSpec | src/volttron/haystack/parser/airside_economizer/json/config_from_json.py:60-103 | the lookups succeed exactly when the first loading does and the AHU is in the loaded map; the state is the loaded one and each name is the key's lookup |
| EconSrcJson.KeyNamesStep | config_generators/src/volttron/haystack/parser/airside_economizer/config_base.py:114-115 | one more key |
| EconSrcJson.KeyNamesPrefixErr | config_generators/src/volttron/haystack/parser/airside_economizer/config_base.py:114-115 | a failing lookup stops the loop |
| EconSrcJson.AhuOutcomeSpec | config_generators/src/volttron/haystack/parser/airside_economizer/config_base.py:105-127 | fails exactly without a point mapping or, with keys, when loading fails or the AHU has no point row; otherwise the base's outcome on the loaded state |
| EconSrcJson.AhuOutcomeOf | config_generators/src/volttron/haystack/parser/airside_economizer/config_base.py:112-127 | the outcome once every key's name is known |
| EconSrcJson.Runs | config_generators/src/volttron/haystack/parser/airside_economizer/config_base.py:82-88 | on success, one output per AHU |
| EconSrcJson.RunsNames | config_generators/src/volttron/haystack/parser/airside_economizer/config_base.py:88-107 | the outputs are the AHUs' short names, in order |
| EconSrcJson.RunsFront | config_generators/src/volttron/haystack/parser/airside_economizer/config_base.py:82-88 | the loop is its first i AHUs followed by the rest |
| EconSrcJson.ThenEnds | config_generators/src/volttron/haystack/parser/airside_economizer/config_base.py:82-88 | nothing left to do adds nothing |
| EconSrcJson.ThenThen | config_generators/src/volttron/haystack/parser/airside_economizer/config_base.py:82-88 | putting outputs in front composes |
| EconSrcJson.JsonEconGenerator.constructor | src/volttron/haystack/parser/airside_economizer/json/config_from_json.py:20-42 | the generator starts with empty lists and maps |
| EconSrcJson.JsonEconGenerator.GetAhus | src/volttron/haystack/parser/airside_economizer/json/config_from_json.py:44-51 | `ahu_list` grows by the ids of the `ahu`-tagged rows, which are returned |
| EconSrcJson.JsonEconGenerator.ExtendInterested | src/volttron/haystack/parser/airside_economizer/json/config_from_json.py:62-66 | the meta values of interest grow by the flattened `point_meta_map` |
| EconSrcJson.JsonEconGenerator.LoadPoints | src/volttron/haystack/parser/airside_economizer/json/config_from_json.py:68-92 | the loading loop leaves the state of the definition, failing exactly when it does |
| EconSrcJson.JsonEconGenerator.LoadRow | src/volttron/haystack/parser/airside_economizer/json/config_from_json.py:69-92 | one point row |
| EconSrcJson.JsonEconGenerator.GetPointName | src/volttron/haystack/parser/airside_economizer/json/config_from_json.py:60-103 | the name and new state of the definition |
| EconSrcJson.JsonEconGenerator.GenerateAhuConfigs | config_generators/src/volttron/haystack/parser/airside_economizer/config_base.py:105-127 | the short name, config and table of the definition |
| EconSrcJson.JsonEconGenerator.GenerateConfigs | config_generators/src/volttron/haystack/parser/airside_economizer/config_base.py:78-103 | the files and exit status of the definition |
| Ilc.SetupOf | config_generators/src/volttron/haystack/parser/ilc/config_base.py:28-96 | `__init__` succeeds exactly when the site id gives a location, `point_meta_map` has `WholeBuildingPower` and, in the cg version, a device type is given; the prefix, building, campus, power role and device type are those the constructor derives (`vav` and no configured meter id in the src version) |
| Ilc.VavTypesAppend | config_generators/src/volttron/haystack/parser/ilc/config_base.py:49 | filtering the roles keeps the map's order |
| Ilc.VavTypesMembers | config_generators/src/volttron/haystack/parser/ilc/config_base.py:49-50 | every key other than `WholeBuildingPower` is a VAV role, and its meta value a VAV meta value |
| Ilc.Field | config_generators/src/volttron/haystack/parser/ilc/config_base.py:267 | `j[k]` succeeds exactly on a dictionary holding `k`, and gives its value |
| Ilc.SetField | config_generators/src/volttron/haystack/parser/ilc/config_base.py:268 | `j[k] = v` succeeds exactly on a dictionary, and changes only `k` |
| Ilc.IlcOutcomeSpec | config_generators/src/volttron/haystack/parser/ilc/config_base.py:186-225 | the config is written exactly when the meter id and the point are both non-empty, and only the power meter's two fields change; no meter gives an error under `building_power_meter`; a missing point gives the non-empty unmapped table (cg only) or an error under the meter id |
| Ilc.IlcConfigCgErrors | config_generators/src/volttron/haystack/parser/ilc/config_base.py:187-196 | a `ValueError` of the meter lookup gives an error under `building_power_meter`, one of the point lookup an error under the meter id |
| Ilc.PointStepSpec | config_generators/src/volttron/haystack/parser/ilc/config_base.py:248-260 | one role: the step fails only on the message's `KeyError`; it sets `skip_vav` exactly for a missing name, adds a found name to the mapping, and writes a record only when the VAV has none |
| Ilc.PointsOk | config_generators/src/volttron/haystack/parser/ilc/config_base.py:248-260 | roles that are keys of `point_meta_map` never make the loop fail |
| Ilc.PointsPrefixErr | config_generators/src/volttron/haystack/parser/ilc/config_base.py:248-260 | a failure on the first roles fails the loop |
| Ilc.PointsSkip | config_generators/src/volttron/haystack/parser/ilc/config_base.py:248-262 | `skip_vav` ends set exactly when it was set or some role has no name |
| Ilc.CompleteSnoc | config_generators/src/volttron/haystack/parser/ilc/config_base.py:248-251 | every role named, one role more |
| Ilc.PointsMapping | config_generators/src/volttron/haystack/parser/ilc/config_base.py:246-251 | the mapping ends holding exactly the named roles, each with its name |
| Ilc.PointsRecords | config_generators/src/volttron/haystack/parser/ilc/config_base.py:252-260 | every record survives the loop, and a skipped VAV has a record |
| Ilc.PointsFirstMissing | config_generators/src/volttron/haystack/parser/ilc/config_base.py:253-259 | create only if absent: a VAV with a record keeps it; one without gets exactly one, for its first role without a name; a VAV with every name leaves the table alone |
| Ilc.KnownPrefix | config_generators/src/volttron/haystack/parser/ilc/config_base.py:248 | the first roles of known roles are known |
| Ilc.PointsUntouched | config_generators/src/volttron/haystack/parser/ilc/config_base.py:253 | a VAV with a record or with every name leaves the table alone |
| Ilc.PointsFirstRecord | config_generators/src/volttron/haystack/parser/ilc/config_base.py:253-259 | a VAV without a record gets the record of its first unnamed role |
| Ilc.StrsOf | config_generators/src/volttron/haystack/parser/ilc/config_base.py:271 | a list gives its strings exactly when every item is a string |
| Ilc.MapAll | config_generators/src/volttron/haystack/parser/ilc/config_base.py:283 | `[point_mapping[p] for p in points]`: one mapped name per point, in order |
| Ilc.ControlEntryKeeps | config_generators/src/volttron/haystack/parser/ilc/config_base.py:267-287 | a control entry changes only `curtail_settings` and `device_status`; `device_topic` and every other key are kept |
| Ilc.AllMappedPerm | config_generators/src/volttron/haystack/parser/ilc/config_base.py:275-283 | whether every token has a name does not depend on their order |
| Ilc.CurtailEntryOk | config_generators/src/volttron/haystack/parser/ilc/config_base.py:271-287 | the curtail part of the documented shape is built exactly when every status argument has a name |
| Ilc.LastReplaced | config_generators/src/volttron/haystack/parser/ilc/config_base.py:279-287 | after `for condition in conditions`, `condition` is the last condition with every token replaced |
| Ilc.CurtailEntryValue | config_generators/src/volttron/haystack/parser/ilc/config_base.py:275-287 | the built curtail part holds the mapped arguments in length order and the last condition with the arguments replaced shortest first |
| Ilc.ControlEntrySpec | config_generators/src/volttron/haystack/parser/ilc/config_base.py:267-288 | on a template of the documented shape, the entry is built exactly when the curtail point and every status argument have a name, and then holds the mapped curtail point and the new curtail part |
| Ilc.CriterionSpec | config_generators/src/volttron/haystack/parser/ilc/config_base.py:346-366 | an operation changes only `operation` and `operation_args`; a dictionary of arguments changes only `always` and `nc` |
| Ilc.CriteriaEntryOk | config_generators/src/volttron/haystack/parser/ilc/config_base.py:340-366 | the criteria loop fails exactly when some entry other than `room_type` and `device_topic` fails |
| Ilc.CriteriaEntrySpec | config_generators/src/volttron/haystack/parser/ilc/config_base.py:340-366 | the loop keeps the keys in order, leaves `room_type` and `device_topic` alone, and rewrites every other entry |
| Ilc.ControlTopic | config_generators/src/volttron/haystack/parser/ilc/config_base.py:245 | a control entry keeps the `device_topic` its copy was given |
| Ilc.CriteriaTopic | config_generators/src/volttron/haystack/parser/ilc/config_base.py:319 | a criteria entry keeps the `device_topic` it was given |
| Ilc.BuildTopic | config_generators/src/volttron/haystack/parser/ilc/config_base.py:240-245 | a built entry carries `device_topic` = prefix + its key |
| Ilc.PointsComplete | config_generators/src/volttron/haystack/parser/ilc/config_base.py:246-262 | from an empty mapping, the VAV is skipped exactly when some role has no name; otherwise the mapping is every role with its name |
| Ilc.VavStepKeys | config_generators/src/volttron/haystack/parser/ilc/config_base.py:237-288 | a VAV with every role named gets an entry under its key; any other VAV leaves the config alone; no other key changes |
| Ilc.VavStepEntry | config_generators/src/volttron/haystack/parser/ilc/config_base.py:288 | the entry is `{vav: config}` built from every role's name |
| Ilc.VavsHas | config_generators/src/volttron/haystack/parser/ilc/config_base.py:237-288 | a fully named VAV has an entry under its key |
| Ilc.VavsComplete | config_generators/src/volttron/haystack/parser/ilc/config_base.py:237-288 | every fully named VAV has an entry under its key |
| Ilc.VavsKeys | config_generators/src/volttron/haystack/parser/ilc/config_base.py:237-288 | every key comes from a fully named VAV |
| Ilc.VavsLast | config_generators/src/volttron/haystack/parser/ilc/config_base.py:288 | the last fully named VAV with a key decides that key's entry |
| Ilc.VavsTopics | config_generators/src/volttron/haystack/parser/ilc/config_base.py:245 | every entry's `device_topic` is the prefix and its key |
| Ilc.VavStepRecords | config_generators/src/volttron/haystack/parser/ilc/config_base.py:253-260 | one VAV keeps every record, and a VAV missing a role ends with one |
| Ilc.VavsKeep | config_generators/src/volttron/haystack/parser/ilc/config_base.py:237-264 | the loop keeps every record |
| Ilc.VavsRecord | config_generators/src/volttron/haystack/parser/ilc/config_base.py:253-264 | a VAV missing a role ends the loop with a record |
| Ilc.VavsRecords | config_generators/src/volttron/haystack/parser/ilc/config_base.py:253-264 | every VAV missing a role ends with a record |
| Ilc.ControlStepOk | config_generators/src/volttron/haystack/parser/ilc/config_base.py:237-288 | with a documented template whose points are control roles that are keys of `point_meta_map`, a VAV of the control loop never fails |
| Ilc.ControlsOk | config_generators/src/volttron/haystack/parser/ilc/config_base.py:237-288 | under the same conditions the control loop never fails |
| Ilc.MetadataNamesSpec | config_generators/src/volttron/haystack/parser/ilc/config_base.py:184-375 | one metadata name per file written, in order, the ILC config as `config` |
| Ilc.RunMetadata | config_generators/src/volttron/haystack/parser/ilc/config_base.py:127-146 | a cg run past `generate_ilc_config` lists the pairwise file first and then `config` when the ILC config was written |
| Ilc.FailedStops | config_generators/src/volttron/haystack/parser/ilc/config_base.py:129-137 | a failed `generate_ilc_config` ends the run with status 1, its error written, and no VAV config |
| Ilc.FailedNonEmpty | config_generators/src/volttron/haystack/parser/ilc/config_base.py:186-225 | the error dictionary of the cg `generate_ilc_config` is never empty |
| Ilc.RunStatus | config_generators/src/volttron/haystack/parser/ilc/config_base.py:148-157 | the run exits with 0 exactly when the unmapped table it ends with is empty |
| Ilc.SrcCriteriaRoles | src/volttron/haystack/parser/ilc/config_base.py:219-224 | the src criteria roles, sorted by length |
| Ilc.SrcIlcConfig | src/volttron/haystack/parser/ilc/config_base.py:129-151 | the src version never reads the unmapped table; no meter id gives the meter-tag message, a meter without a point an error under the meter id |
| Ilc.NoMeterTag | src/volttron/haystack/parser/ilc/config_base.py:146-147 | without a configured meter id the message names the `siteMeter` tag |
| Ilc.SrcRunFiles | src/volttron/haystack/parser/ilc/config_base.py:100-127 | a src run writes no pairwise file and no metadata; after an error nothing else; otherwise `ilc.config` when written, then `vav_control.config` and `criteria.config` when non-empty |
| Ilc.CriteriaFileName | src/volttron/haystack/parser/ilc/config_base.py:72 | the src template names `vav_criteria.config` while the src generator writes `criteria.config`; in the cg version the two agree |
| Ilc.RunCovers | config_generators/src/volttron/haystack/parser/ilc/config_base.py:139-157 | after a written ILC config, a fully named VAV has an entry in each config under its key, and one missing a role has a record and makes the run exit with 1 |
| Ilc.RunTopics | config_generators/src/volttron/haystack/parser/ilc/config_base.py:245-319 | every entry of both configs carries `device_topic` = prefix + its key |
| IlcGen.IlcGenerator.constructor | config_generators/src/volttron/haystack/parser/ilc/config_base.py:52-57 | the generator starts from its setup, back-end state and table |
| IlcGen.IlcGenerator.LookUp | config_generators/src/volttron/haystack/parser/ilc/config_base.py:246-260 | the lookup loop gives the mapping and `skip_vav` of the definition, and its table |
| IlcGen.IlcGenerator.VavConfig | config_generators/src/volttron/haystack/parser/ilc/config_base.py:237-288 | one VAV of either loop, as the definition says |
| IlcGen.IlcGenerator.GenerateVavConfigs | config_generators/src/volttron/haystack/parser/ilc/config_base.py:227-288 | the config of the definition for the VAVs, from an empty config |
| IlcGen.IlcGenerator.GenerateConfigs | config_generators/src/volttron/haystack/parser/ilc/config_base.py:122-157 | the run of the definition once `generate_ilc_config` has returned |
| IlcCgDb.PowerMeterSpec | config_generators/src/volttron/haystack/parser/ilc/intellimation/config_intellimation.py:34-59 | the meter lookup succeeds exactly when the query returns at most one row, giving that id or `""`; more rows raise the `ValueError` naming the configured id or the tag |
| IlcCgDb.TopicAtNone | config_generators/src/volttron/haystack/parser/ilc/intellimation/config_intellimation.py:84-109 | a meta value with no point row gives `""` and changes nothing |
| IlcCgDb.TopicAtOne | config_generators/src/volttron/haystack/parser/ilc/intellimation/config_intellimation.py:96-100 | exactly one point row gives its topic, recorded under the equipment and meta value; nothing else changes |
| IlcCgDb.TopicAtTwo | config_generators/src/volttron/haystack/parser/ilc/intellimation/config_intellimation.py:101-108 | two point rows give `""` and a record listing every topic of the query; the topic map is untouched |
| IlcCgDb.PointNameUnique | config_generators/src/volttron/haystack/parser/ilc/intellimation/config_intellimation.py:129-132 | a non-empty point name comes from the one row of its point query |
| IlcCgDb.PowerPointTwo | config_generators/src/volttron/haystack/parser/ilc/intellimation/config_intellimation.py:61-70 | two power rows leave the power point empty, with a `power_meter` record for the meter |
| IlcCgDb.PowerPointOne | config_generators/src/volttron/haystack/parser/ilc/intellimation/config_intellimation.py:61-70 | one power row of a meter without a record gives that row's point name |
| IlcCgDb.PowerPointRecorded | config_generators/src/volttron/haystack/parser/ilc/intellimation/config_intellimation.py:66-68 | a meter id that already has a record gets no power point |
| IlcCgDb.FailedNotEmpty | config_generators/src/volttron/haystack/parser/ilc/config_base.py:186-225 | a failed ILC config is never an empty error dictionary |
| IlcCgDb.DbPointNameAgrees | config_generators/src/volttron/haystack/parser/ilc/intellimation/config_intellimation.py:129-132 | for every role of `point_meta_map`, the loops' lookup is `get_point_name` |
| IlcCgDb.DbPointNameShape | config_generators/src/volttron/haystack/parser/ilc/intellimation/config_intellimation.py:84-109 | the names do not depend on the state, and no record is removed or emptied |
| IlcCgDb.GenerateFailed | config_generators/src/volttron/haystack/parser/ilc/config_base.py:129-137 | a failed ILC config ends the run with its errors, no VAV output and status 1 |
| IlcCgDb.GenerateCovers | config_generators/src/volttron/haystack/parser/ilc/config_base.py:139-157 | with the ILC config written, each VAV row gets its control (criteria) entry when every control (criteria) role has a name, and otherwise a record and status 1 |
| IlcCgDb.GenerateTopics | config_generators/src/volttron/haystack/parser/ilc/config_base.py:245-319 | every emitted entry's device topic is the prefix and its key |
| IlcCgDb.DbIlcGenerator.constructor | config_generators/src/volttron/haystack/parser/ilc/intellimation/config_intellimation.py:30-32 | the generator starts with an empty VAV cache and tables |
| IlcCgDb.DbIlcGenerator.GetBuildingPowerMeter | config_generators/src/volttron/haystack/parser/ilc/intellimation/config_intellimation.py:34-59 | the meter of the definition |
| IlcCgDb.DbIlcGenerator.GetPointName | config_generators/src/volttron/haystack/parser/ilc/intellimation/config_intellimation.py:84-132 | the name and new state of the definition |
| IlcCgDb.DbIlcGenerator.GetBuildingPowerPoint | config_generators/src/volttron/haystack/parser/ilc/intellimation/config_intellimation.py:61-70 | the power point and new state of the definition |
| IlcCgDb.DbIlcGenerator.GetVavsWithAhuref | config_generators/src/volttron/haystack/parser/ilc/intellimation/config_intellimation.py:72-82 | the query runs only while the cache is empty, and the cache is returned |
| IlcCgDb.DbIlcGenerator.GenerateIlcConfig | config_generators/src/volttron/haystack/parser/ilc/config_base.py:186-225 | the result and new state of the definition |
| IlcCgDb.DbIlcGenerator.GenerateConfigs | config_generators/src/volttron/haystack/parser/ilc/config_base.py:122-157 | the run of the definition |
| IlcCgJson.PopulateMeter | config_generators/src/volttron/haystack/parser/ilc/json/config_from_json.py:40-58 | from no meter, the pass fails exactly when two rows are meter rows; otherwise the meter is the id of the one meter row, or stays `None` |
| IlcCgJson.TwoMetersSnoc | config_generators/src/volttron/haystack/parser/ilc/json/config_from_json.py:41-58 | two meter rows among the rows seen and one more |
| IlcCgJson.MeterOfStep | config_generators/src/volttron/haystack/parser/ilc/json/config_from_json.py:41-58 | one more row keeps what the meter is |
| IlcCgJson.PopulateMeterOk | config_generators/src/volttron/haystack/parser/ilc/json/config_from_json.py:40-58 | a pass without two meter rows leaves the meter of the one meter row |
| IlcCgJson.PopulateMeterErr | config_generators/src/volttron/haystack/parser/ilc/json/config_from_json.py:44-58 | a failing pass has seen two meter rows |
| IlcCgJson.PopulateVavLast | config_generators/src/volttron/haystack/parser/ilc/json/config_from_json.py:60-61 | the last `vav`-tagged row with an id decides what it maps to: its `ahuRef`, or `""` |
| IlcCgJson.PopulateVavUntouched | config_generators/src/volttron/haystack/parser/ilc/json/config_from_json.py:60-61 | an id no `vav`-tagged row has keeps its value |
| IlcCgJson.PopulateUnique | config_generators/src/volttron/haystack/parser/ilc/json/config_from_json.py:61 | `vav_dict` keeps its keys unique |
| IlcCgJson.PowerMeterFresh | config_generators/src/volttron/haystack/parser/ilc/json/config_from_json.py:63-66 | on a new generator the lookup fails exactly when two rows are meter rows, and otherwise gives the one meter row's id, or `None` |
| IlcCgJson.StepSlot | config_generators/src/volttron/haystack/parser/ilc/json/config_from_json.py:113-133 | a named row of a slot sets its name when it has none, and a loaded row sets its topic; nothing else changes there |
| IlcCgJson.StepName | config_generators/src/volttron/haystack/parser/ilc/json/config_from_json.py:122-133 | what one row does to a slot's name |
| IlcCgJson.EnterName | config_generators/src/volttron/haystack/parser/ilc/json/config_from_json.py:120-133 | what a loaded row does to a slot's name |
| IlcCgJson.StepTopic | config_generators/src/volttron/haystack/parser/ilc/json/config_from_json.py:117-119 | what one row does to a slot's topic |
| IlcCgJson.StepTable | config_generators/src/volttron/haystack/parser/ilc/json/config_from_json.py:123-138 | only a loaded row of the equipment writes its record; a record is never emptied; a row without a name, or a second name, leaves a record |
| IlcCgJson.EnterTable | config_generators/src/volttron/haystack/parser/ilc/json/config_from_json.py:123-138 | what a loaded row does to the table |
| IlcCgJson.StepEntries | config_generators/src/volttron/haystack/parser/ilc/json/config_from_json.py:120-121 | no point-map entry goes, and a loaded row's equipment has one |
| IlcCgJson.LoadOk | config_generators/src/volttron/haystack/parser/ilc/json/config_from_json.py:97-138 | loading never fails |
| IlcCgJson.LoadIgnored | config_generators/src/volttron/haystack/parser/ilc/json/config_from_json.py:98-114 | rows without a meta field, of other equipment or of meta values not of interest change nothing |
| IlcCgJson.LoadEntries | config_generators/src/volttron/haystack/parser/ilc/json/config_from_json.py:120-121 | every loaded row gives its equipment an entry, and none goes |
| IlcCgJson.LoadTopicLast | config_generators/src/volttron/haystack/parser/ilc/json/config_from_json.py:119 | the last loaded row of a slot decides its topic |
| IlcCgJson.LoadUntouched | config_generators/src/volttron/haystack/parser/ilc/json/config_from_json.py:97-138 | a slot no loaded row names keeps its topic and name |
| IlcCgJson.LoadKeepsName | config_generators/src/volttron/haystack/parser/ilc/json/config_from_json.py:124-133 | a point name, once there, is never replaced |
| IlcCgJson.LoadNoNameBefore | config_generators/src/volttron/haystack/parser/ilc/json/config_from_json.py:122-133 | without a named row, a slot's name stays empty |
| IlcCgJson.LoadSplit | config_generators/src/volttron/haystack/parser/ilc/json/config_from_json.py:97 | the loop is the rows up to row i, then the rest |
| IlcCgJson.LoadFirstName | config_generators/src/volttron/haystack/parser/ilc/json/config_from_json.py:124-133 | the first named row of an empty slot decides its name |
| IlcCgJson.LoadKeepsRecords | config_generators/src/volttron/haystack/parser/ilc/json/config_from_json.py:126-138 | a record, once there, is never emptied or removed |
| IlcCgJson.LoadTableUntouched | config_generators/src/volttron/haystack/parser/ilc/json/config_from_json.py:126-138 | only equipment with a loaded row can have its record changed |
| IlcCgJson.LoadNoName | config_generators/src/volttron/haystack/parser/ilc/json/config_from_json.py:134-138 | a loaded row whose topic gives no name leaves a record |
| IlcCgJson.LoadAmbiguous | config_generators/src/volttron/haystack/parser/ilc/json/config_from_json.py:124-131 | two named rows of the same slot leave a record |
| IlcCgJson.ReloadIdem | config_generators/src/volttron/haystack/parser/ilc/json/config_from_json.py:91 | a load that leaves the point map empty loaded no row, so a second changes nothing |
| IlcCgJson.PointNameFirst | config_generators/src/volttron/haystack/parser/ilc/json/config_from_json.py:90-144 | on an unloaded generator, a role's name is that of the first named row of its slot |
| IlcCgJson.PointNameAbsent | config_generators/src/volttron/haystack/parser/ilc/json/config_from_json.py:140-144 | an equipment and role with no named row give `""` |
| IlcCgJson.PowerPointSpec | config_generators/src/volttron/haystack/parser/ilc/json/config_from_json.py:68-78 | the power point is non-empty exactly when the meter id is non-empty, has no record and has a name for the power meta value, which it then is |
| IlcCgJson.PowerPointEmpty | config_generators/src/volttron/haystack/parser/ilc/json/config_from_json.py:74-76 | a meter row without a name, or two named power rows, leave the power point empty |
| IlcCgJson.PowerPointFirst | config_generators/src/volttron/haystack/parser/ilc/json/config_from_json.py:68-78 | without a record, the power point is the name of the first named power row |
| IlcCgJson.WrittenLoaded | config_generators/src/volttron/haystack/parser/ilc/config_base.py:199-210 | a written ILC config has loaded the point rows |
| IlcCgJson.FailedNotEmpty | config_generators/src/volttron/haystack/parser/ilc/config_base.py:186-225 | a failed ILC config is never an empty error dictionary |
| IlcCgJson.VavLookupAgrees | config_generators/src/volttron/haystack/parser/ilc/json/config_from_json.py:90-144 | once loaded, the VAV loops' lookups are `get_point_name` for every role of `point_meta_map` |
| IlcCgJson.VavLookupShape | config_generators/src/volttron/haystack/parser/ilc/json/config_from_json.py:140-144 | the loaded lookups depend only on the loaded map and leave the table alone |
| IlcCgJson.GenerateFailed | config_generators/src/volttron/haystack/parser/ilc/config_base.py:129-137 | a failed ILC config ends the run with its errors, no VAV output and status 1 |
| IlcCgJson.GenerateCovers | config_generators/src/volttron/haystack/parser/ilc/config_base.py:139-157 | with the ILC config written, each VAV of `vav_dict` gets its entries when its roles are named, and otherwise a record and status 1 |
| IlcCgJson.GenerateTopics | config_generators/src/volttron/haystack/parser/ilc/config_base.py:245-319 | every emitted entry's device topic is the prefix and its key |
| IlcCgJson.JsonIlcGenerator.constructor | config_generators/src/volttron/haystack/parser/ilc/json/config_from_json.py:20-33 | the generator starts with no meter and empty maps |
| IlcCgJson.JsonIlcGenerator.PopulateEquipDetails | config_generators/src/volttron/haystack/parser/ilc/json/config_from_json.py:35-61 | the pass over the equipment rows, as the definition says |
| IlcCgJson.JsonIlcGenerator.GetBuildingPowerMeter | config_generators/src/volttron/haystack/parser/ilc/json/config_from_json.py:63-66 | the meter and state of the definition |
| IlcCgJson.JsonIlcGenerator.LoadRow | config_generators/src/volttron/haystack/parser/ilc/json/config_from_json.py:98-138 | one point row |
| IlcCgJson.JsonIlcGenerator.LoadPoints | config_generators/src/volttron/haystack/parser/ilc/json/config_from_json.py:96-138 | the loading loop leaves the state of the definition |
| IlcCgJson.JsonIlcGenerator.GetPointName | config_generators/src/volttron/haystack/parser/ilc/json/config_from_json.py:90-144 | the name and state of the definition |
| IlcCgJson.JsonIlcGenerator.GetBuildingPowerPoint | config_generators/src/volttron/haystack/parser/ilc/json/config_from_json.py:68-78 | the power point and state of the definition |
| IlcCgJson.JsonIlcGenerator.GenerateIlcConfig | config_generators/src/volttron/haystack/parser/ilc/config_base.py:186-225 | the result and state of the definition |
| IlcCgJson.JsonIlcGenerator.GenerateConfigs | config_generators/src/volttron/haystack/parser/ilc/config_base.py:122-157 | the run of the definition |
| Rcx.TypesOf | config_generators/src/volttron/haystack/parser/airsidercx/config_base.py:47-53 | the meta values of the point keys, one per key, in key order |
| Rcx.InitTemplate | config_generators/src/volttron/haystack/parser/airsidercx/config_base.py:62-67 | the template with `device` set to the campus, building and an empty unit; nothing else changes |
| Rcx.AssembleSpec | config_generators/src/volttron/haystack/parser/airsidercx/config_base.py:132-142 | only the unit and the written point names differ from the template; every other field and point name is kept |
| Rcx.SubDevices | config_generators/src/volttron/haystack/parser/airsidercx/config_base.py:165-167 | the VAVs' short names, in order |
| Rcx.SubDevicesStep | config_generators/src/volttron/haystack/parser/airsidercx/config_base.py:167 | one more VAV appends its short name |
| Rcx.AhuMapping | config_generators/src/volttron/haystack/parser/airsidercx/config_base.py:140-142 | each AHU key holds its name |
| Rcx.AddTo | config_generators/src/volttron/haystack/parser/airsidercx/config_base.py:172 | `point_mapping[key].add(name)` adds the name to that key's set only |
| Rcx.RealisesSpec | config_generators/src/volttron/haystack/parser/airsidercx/config_base.py:175-195 | a realised config holds the AHU's names, the VAV short names in order, each VAV key collapsed from its set, and every other template point unchanged |
| Rcx.AhuKeyNotVav | config_generators/src/volttron/haystack/parser/airsidercx/config_base.py:44-46 | no AHU key is a VAV key |
| Rcx.RealisesIntro | config_generators/src/volttron/haystack/parser/airsidercx/config_base.py:175-193 | the collapsed values of the two VAV keys make a realised config |
| Rcx.AhuNames | config_generators/src/volttron/haystack/parser/airsidercx/config_base.py:140-142 | one name per AHU key, in order |
| Rcx.VavSetsOk | config_generators/src/volttron/haystack/parser/airsidercx/config_base.py:165-172 | the VAV loop fails exactly when some VAV is not in the point map |
| Rcx.VavSetsRole | config_generators/src/volttron/haystack/parser/airsidercx/config_base.py:169-172 | the set of one role holds its non-empty names |
| Rcx.AddNamedTwice | config_generators/src/volttron/haystack/parser/airsidercx/config_base.py:169-172 | adding to two different roles commutes |
| Rcx.RoleSetSnoc | config_generators/src/volttron/haystack/parser/airsidercx/config_base.py:171-172 | one more VAV adds its non-empty name to the role's set |
| Rcx.VavSetsSpec | config_generators/src/volttron/haystack/parser/airsidercx/config_base.py:165-172 | each role's set holds exactly the non-empty names of that role on the VAVs |
| Rcx.VavSetsStep | config_generators/src/volttron/haystack/parser/airsidercx/config_base.py:165-172 | one more VAV |
| Rcx.VavSetsPrefixErr | config_generators/src/volttron/haystack/parser/airsidercx/config_base.py:165-172 | a failing VAV fails the loop |
| RcxCg.SetupOf | config_generators/src/volttron/haystack/parser/airsidercx/config_base.py:26-67 | building and campus from the site id when not configured, the point keys' meta values, and the template's `device` entry |
| RcxCg.GroupRowsLists | config_generators/src/volttron/haystack/parser/airsidercx/json/config_from_json.py:37-48 | `vav_list` grows by the VAV ids; the point maps are untouched |
| RcxCg.GroupRowsUnmapped | config_generators/src/volttron/haystack/parser/airsidercx/json/config_from_json.py:45-47 | the table gains exactly the VAVs without `ahuRef`, each recorded "Unable to find ahuRef" |
| RcxCg.GroupRowsBuckets | config_generators/src/volttron/haystack/parser/airsidercx/json/config_from_json.py:42-44 | each key holds, in row order, the VAVs whose truthy `ahuRef` it is; a VAV without one is in no group |
| RcxCg.GroupRowsUnique | config_generators/src/volttron/haystack/parser/airsidercx/json/config_from_json.py:36-44 | no key appears twice |
| RcxCg.AhuAndVavsSpec | config_generators/src/volttron/haystack/parser/airsidercx/json/config_from_json.py:33-51 | `ahu_list` gains exactly the group keys, each once, each an AHU some VAV names; every VAV joins `vav_list` |
| RcxCg.LoadStepSpec | config_generators/src/volttron/haystack/parser/airsidercx/json/config_from_json.py:65-100 | a row fails exactly when it passes the meta check without a `.` in its id; a row of interest adds its equipment to both maps; an empty damper name replaces the record |
| RcxCg.LoadStepSlotsHold | config_generators/src/volttron/haystack/parser/airsidercx/json/config_from_json.py:88-95 | a row of interest records its topic and its non-empty name in its slot; every other slot keeps its value |
| RcxCg.LoadStepTopic | config_generators/src/volttron/haystack/parser/airsidercx/json/config_from_json.py:88-90 | what one row does to a topic slot |
| RcxCg.LoadStepName | config_generators/src/volttron/haystack/parser/airsidercx/json/config_from_json.py:93-95 | what one row does to a name slot |
| RcxCg.LoadOk | config_generators/src/volttron/haystack/parser/airsidercx/json/config_from_json.py:64-100 | loading fails exactly when some row fails, and keeps the lists |
| RcxCg.LoadSnoc | config_generators/src/volttron/haystack/parser/airsidercx/json/config_from_json.py:65-100 | one more row |
| RcxCg.LoadKeys | config_generators/src/volttron/haystack/parser/airsidercx/json/config_from_json.py:88-92 | an equipment enters both maps exactly when a row of interest names it |
| RcxCg.LoadTopicLast | config_generators/src/volttron/haystack/parser/airsidercx/json/config_from_json.py:90 | the last row of interest of a slot decides its topic |
| RcxCg.LoadNameLast | config_generators/src/volttron/haystack/parser/airsidercx/json/config_from_json.py:93-95 | the last row storing a name decides it; empty names do not clear it |
| RcxCg.LoadNameUntouched | config_generators/src/volttron/haystack/parser/airsidercx/json/config_from_json.py:93-95 | a slot no row stores a name in keeps its value |
| RcxCg.LoadWarnLast | config_generators/src/volttron/haystack/parser/airsidercx/json/config_from_json.py:96-100 | the last unparsable damper row decides the equipment's record |
| RcxCg.LoadUnmappedUntouched | config_generators/src/volttron/haystack/parser/airsidercx/json/config_from_json.py:96-100 | equipment without such a row keeps its record |
| RcxCg.LoadNothing | config_generators/src/volttron/haystack/parser/airsidercx/json/config_from_json.py:65-100 | without a row of interest, loading changes nothing |
| RcxCg.LoadPrefixErr | config_generators/src/volttron/haystack/parser/airsidercx/json/config_from_json.py:65-100 | a failing row fails the load |
| RcxCg.LoadedTwice | config_generators/src/volttron/haystack/parser/airsidercx/json/config_from_json.py:62 | loading a second time changes nothing |
| RcxCg.PointNameFromRows | config_generators/src/volttron/haystack/parser/airsidercx/json/config_from_json.py:61-103 | on a first lookup, an equipment is known exactly when a row of interest names it; a meta value without a stored name gives `""`; otherwise the last piece of the last storing row's topic |
| RcxCg.PointNameLoaded | config_generators/src/volttron/haystack/parser/airsidercx/json/config_from_json.py:62-103 | once loaded, a lookup neither reloads nor changes anything |
| RcxCg.VavTopics | config_generators/src/volttron/haystack/parser/airsidercx/config_base.py:184-188 | the topic maps of those VAVs that have one |
| RcxCg.WarnedSpec | config_generators/src/volttron/haystack/parser/airsidercx/config_base.py:155-188 | only the AHU's record may change: the damper warning when no damper name is found, else the duct warning when `duct_stcpr` is empty, else unchanged |
| RcxCg.AhuPlanNoAhu | config_generators/src/volttron/haystack/parser/airsidercx/config_base.py:130-131 | an empty AHU id, and only that, gives `(None, None)` and changes nothing |
| RcxCg.AhuPlanErr | config_generators/src/volttron/haystack/parser/airsidercx/config_base.py:129-195 | for a non-empty id the call fails exactly when the template has no point mapping, the document does not load, the AHU has no point of interest, or (with a fan point) some VAV has none |
| RcxCg.AhuPlanFanMissing | config_generators/src/volttron/haystack/parser/airsidercx/config_base.py:146-152 | without a `fan_status` name and a truthy `fan_speed`, no config and the `"ahu"` record, even when `fan_speedcmd` is found |
| RcxCg.AhuPlanPlanned | config_generators/src/volttron/haystack/parser/airsidercx/config_base.py:154-195 | with a fan point, the plan holds the six AHU names and each VAV role's non-empty names, and only the table changes, by the warnings |
| RcxCg.Plans | config_generators/src/volttron/haystack/parser/airsidercx/config_base.py:104-105 | on success, one plan per group |
| RcxCg.PlansStep | config_generators/src/volttron/haystack/parser/airsidercx/config_base.py:104-105 | one more group |
| RcxCg.PlansPrefixErr | config_generators/src/volttron/haystack/parser/airsidercx/config_base.py:104-105 | a failing group fails the loop |
| RcxCg.FilesSpec | config_generators/src/volttron/haystack/parser/airsidercx/config_base.py:104-110 | exactly the results with a config and a non-empty name are written, in order |
| RcxCg.OutputSnoc | config_generators/src/volttron/haystack/parser/airsidercx/config_base.py:106-111 | one more result adds its file and metadata entry when written |
| RcxCg.MetaKeys | config_generators/src/volttron/haystack/parser/airsidercx/config_base.py:111 | one key per written file |
| RcxCg.MetadataKeys | config_generators/src/volttron/haystack/parser/airsidercx/config_base.py:111 | the metadata keys are `"airsidercx-"` and each written AHU name |
| RcxCg.MetadataValues | config_generators/src/volttron/haystack/parser/airsidercx/config_base.py:111 | each key holds its AHU's config file |
| RcxCg.MetadataKeyInjective | config_generators/src/volttron/haystack/parser/airsidercx/config_base.py:111 | different AHU names give different keys |
| RcxCg.RcxCgGenerator.constructor | config_generators/src/volttron/haystack/parser/airsidercx/config_base.py:34-85 | the generator starts with empty lists and maps |
| RcxCg.RcxCgGenerator.GetAhuAndVavs | config_generators/src/volttron/haystack/parser/airsidercx/json/config_from_json.py:33-51 | the grouping and state of the definition |
| RcxCg.RcxCgGenerator.GroupRow | config_generators/src/volttron/haystack/parser/airsidercx/json/config_from_json.py:38-48 | one row of the grouping loop |
| RcxCg.RcxCgGenerator.LoadPoints | config_generators/src/volttron/haystack/parser/airsidercx/json/config_from_json.py:64-100 | the loading loop leaves the state of the definition, failing exactly when it does |
| RcxCg.RcxCgGenerator.LoadRow | config_generators/src/volttron/haystack/parser/airsidercx/json/config_from_json.py:66-100 | one point row |
| RcxCg.RcxCgGenerator.GetPointName | config_generators/src/volttron/haystack/parser/airsidercx/json/config_from_json.py:61-103 | the name and state of the definition |
| RcxCg.RcxCgGenerator.AhuPointNames | config_generators/src/volttron/haystack/parser/airsidercx/config_base.py:140-142 | the six AHU names |
| RcxCg.RcxCgGenerator.VavPointSets | config_generators/src/volttron/haystack/parser/airsidercx/config_base.py:165-172 | the subdevices and each role's names |
| RcxCg.RcxCgGenerator.VavPointNames | config_generators/src/volttron/haystack/parser/airsidercx/config_base.py:169-172 | one VAV's two roles |
| RcxCg.RcxCgGenerator.DamperTopics | config_generators/src/volttron/haystack/parser/airsidercx/config_base.py:184-188 | the `topic_name` map of the missing-damper record |
| RcxCg.RcxCgGenerator.GenerateAhuConfigs | config_generators/src/volttron/haystack/parser/airsidercx/config_base.py:129-195 | the result and state of the plan |
| RcxCg.RcxCgGenerator.GenerateConfigs | config_generators/src/volttron/haystack/parser/airsidercx/config_base.py:97-127 | the files, metadata and exit status (1 exactly when the table is non-empty) |
| RcxCg.RcxCgGenerator.GenerateAll | config_generators/src/volttron/haystack/parser/airsidercx/config_base.py:104-116 | the loop over the groups |
| RcxCg.RcxCgGenerator.AhuOutput | config_generators/src/volttron/haystack/parser/airsidercx/config_base.py:105-111 | one AHU of the loop |
| RcxSrcDb.TopicByPointTypeSpec | src/volttron/haystack/parser/airsidercx/intellimation/config_intellimation.py:62-79 | fails exactly for a key without a meta value; `""` without rows, else the first row's topic |
| RcxSrcDb.KeyNamesSpec | src/volttron/haystack/parser/airsidercx/intellimation/config_intellimation.py:110-113 | the names fail exactly when some key has no meta value; the i-th is the name of the i-th key |
| RcxSrcDb.KeyNamesStep | src/volttron/haystack/parser/airsidercx/intellimation/config_intellimation.py:110-113 | one more key |
| RcxSrcDb.KeyNamesPrefixErr | src/volttron/haystack/parser/airsidercx/intellimation/config_intellimation.py:110-113 | a failing key fails the loop |
| RcxSrcDb.KeyResults | src/volttron/haystack/parser/airsidercx/intellimation/config_intellimation.py:124-127 | one lookup per VAV |
| RcxSrcDb.DbSetsSpec | src/volttron/haystack/parser/airsidercx/intellimation/config_intellimation.py:120-127 | the loop fails exactly when there is a VAV and a VAV key has no meta value; each role's set holds exactly its names, empty ones included |
| RcxSrcDb.DbSetsRole | src/volttron/haystack/parser/airsidercx/intellimation/config_intellimation.py:124-127 | one more VAV adds its role's name |
| RcxSrcDb.AllNamesSnoc | src/volttron/haystack/parser/airsidercx/intellimation/config_intellimation.py:127 | one more name |
| RcxSrcDb.NamesOfSnoc | src/volttron/haystack/parser/airsidercx/intellimation/config_intellimation.py:127 | one more lookup |
| RcxSrcDb.DbSetsStep | src/volttron/haystack/parser/airsidercx/intellimation/config_intellimation.py:120-127 | one more VAV |
| RcxSrcDb.DbSetsPrefixErr | src/volttron/haystack/parser/airsidercx/intellimation/config_intellimation.py:120-127 | a failing VAV fails the loop |
| RcxSrcDb.AhuPlanSpec | src/volttron/haystack/parser/airsidercx/intellimation/config_intellimation.py:101-136 | fails exactly when the template has no point mapping, a key has no meta value, or there are no VAVs (`pop` of an empty set); otherwise the AHU name, its six names and each role's names |
| RcxSrcDb.GenerateAhuConfigs | src/volttron/haystack/parser/airsidercx/intellimation/config_intellimation.py:101-136 | the AHU name and a config realising the plan, failing exactly when the plan does |
| RcxSrcDb.VavNames | src/volttron/haystack/parser/airsidercx/intellimation/config_intellimation.py:120-127 | the subdevices and each role's names |
| RcxSrcDb.OutputsStep | src/volttron/haystack/parser/airsidercx/base/config_base.py:84-88 | one more AHU |
| RcxSrcDb.GenerateConfigs | src/volttron/haystack/parser/airsidercx/base/config_base.py:77-88 | one `<ahu>.json` per AHU of the query, in order; fails exactly when some plan fails |
| RcxSrcJson.GroupRowsLists | src/volttron/haystack/parser/airsidercx/json/config_from_json.py:56-62 | fails exactly when a VAV row has no `ahuRef`; `vav_list` grows by the VAV ids |
| RcxSrcJson.GroupRowsBuckets | src/volttron/haystack/parser/airsidercx/json/config_from_json.py:59-61 | each key holds, in row order, the VAVs whose `ahuRef` it is |
| RcxSrcJson.GroupRowsUnique | src/volttron/haystack/parser/airsidercx/json/config_from_json.py:55-61 | no key appears twice |
| RcxSrcJson.AhuAndVavsSpec | src/volttron/haystack/parser/airsidercx/json/config_from_json.py:52-65 | fails exactly when a VAV row has no `ahuRef`; otherwise `ahu_list` gains exactly the keys, each once |
| RcxSrcJson.GroupRowsPrefixErr | src/volttron/haystack/parser/airsidercx/json/config_from_json.py:56-62 | a failing row fails the grouping |
| RcxSrcJson.LoadStepSpec | src/volttron/haystack/parser/airsidercx/json/config_from_json.py:78-100 | a row fails exactly when it passes the meta check without a `.`; a row of interest stores its name, even an empty one |
| RcxSrcJson.LoadOk | src/volttron/haystack/parser/airsidercx/json/config_from_json.py:77-100 | loading fails exactly when some row fails, and keeps the lists |
| RcxSrcJson.LoadSnoc | src/volttron/haystack/parser/airsidercx/json/config_from_json.py:78-100 | one more row |
| RcxSrcJson.LoadKeys | src/volttron/haystack/parser/airsidercx/json/config_from_json.py:96-98 | an equipment enters the map exactly when a row of interest names it |
| RcxSrcJson.LoadNameLast | src/volttron/haystack/parser/airsidercx/json/config_from_json.py:99-100 | the last row of interest of a slot decides its name, even an empty one |
| RcxSrcJson.LoadNameUntouched | src/volttron/haystack/parser/airsidercx/json/config_from_json.py:96-100 | a slot no row names keeps its value |
| RcxSrcJson.LoadNothing | src/volttron/haystack/parser/airsidercx/json/config_from_json.py:78-100 | without a row of interest nothing changes |
| RcxSrcJson.LoadPrefixErr | src/volttron/haystack/parser/airsidercx/json/config_from_json.py:78-100 | a failing row fails the load |
| RcxSrcJson.LoadedTwice | src/volttron/haystack/parser/airsidercx/json/config_from_json.py:75 | loading a second time changes nothing |
| RcxSrcJson.PointNameFromRows | src/volttron/haystack/parser/airsidercx/json/config_from_json.py:74-104 | on a first lookup, an equipment is known exactly when a row of interest names it; otherwise `""` or the name from the last naming row's topic |
| RcxSrcJson.PointNameLoaded | src/volttron/haystack/parser/airsidercx/json/config_from_json.py:75-104 | once loaded, a lookup neither reloads nor changes anything |
| RcxSrcJson.AhuPlanSpec | src/volttron/haystack/parser/airsidercx/json/config_from_json.py:106-142 | fails exactly when the template has no point mapping, the document does not load, or the AHU or a VAV has no point of interest; otherwise the six names and each role's non-empty names |
| RcxSrcJson.Plans | src/volttron/haystack/parser/airsidercx/base/config_base.py:84-85 | on success, one plan per group |
| RcxSrcJson.PlansStep | src/volttron/haystack/parser/airsidercx/base/config_base.py:84-85 | one more group |
| RcxSrcJson.PlansPrefixErr | src/volttron/haystack/parser/airsidercx/base/config_base.py:84-85 | a failing group fails the loop |
| RcxSrcJson.PlansKeepState | src/volttron/haystack/parser/airsidercx/json/config_from_json.py:75 | after the first AHU the point map stays loaded and the lists never change |
| RcxSrcJson.JsonRcxGenerator.constructor | src/volttron/haystack/parser/airsidercx/json/config_from_json.py:20-50 | the generator starts with empty lists and maps |
| RcxSrcJson.JsonRcxGenerator.GetAhuAndVavs | src/volttron/haystack/parser/airsidercx/json/config_from_json.py:52-65 | the grouping and state of the definition |
| RcxSrcJson.JsonRcxGenerator.GroupRow | src/volttron/haystack/parser/airsidercx/json/config_from_json.py:57-62 | one row of the grouping loop |
| RcxSrcJson.JsonRcxGenerator.LoadPoints | src/volttron/haystack/parser/airsidercx/json/config_from_json.py:77-100 | the loading loop, as the definition says |
| RcxSrcJson.JsonRcxGenerator.LoadRow | src/volttron/haystack/parser/airsidercx/json/config_from_json.py:79-100 | one point row |
| RcxSrcJson.JsonRcxGenerator.GetPointName | src/volttron/haystack/parser/airsidercx/json/config_from_json.py:74-104 | the name and state of the definition |
| RcxSrcJson.JsonRcxGenerator.AhuPointNames | src/volttron/haystack/parser/airsidercx/json/config_from_json.py:115-117 | the six AHU names |
| RcxSrcJson.JsonRcxGenerator.VavPointSets | src/volttron/haystack/parser/airsidercx/json/config_from_json.py:124-131 | the subdevices and each role's names |
| RcxSrcJson.JsonRcxGenerator.VavPointNames | src/volttron/haystack/parser/airsidercx/json/config_from_json.py:128-131 | one VAV's two roles |
| RcxSrcJson.JsonRcxGenerator.GenerateAhuConfigs | src/volttron/haystack/parser/airsidercx/json/config_from_json.py:106-142 | the AHU name and a config realising the plan |
| RcxSrcJson.JsonRcxGenerator.GenerateConfigs | src/volttron/haystack/parser/airsidercx/base/config_base.py:77-88 | one `<ahu>.json` per group, in order |
| RcxSrcJson.JsonRcxGenerator.GenerateAll | src/volttron/haystack/parser/airsidercx/base/config_base.py:84-88 | the loop over the groups |

## Left out
- Pairwise criteria validation (`validate_pairwise`, the ILC pairwise-criteria step) is left out. It is floating-point arithmetic in a module that is not part of this model. The criteria entries are built, but the model states nothing about the pairwise weights.
- File and process I/O is left out: `open`, `json.load`, `json.dump`, directory creation and checks, `shutil.copy`, `print` and `sys.stderr`. `sys.exit` is returned as a status value. What would be written is returned instead, in a different shape per family:
  - the driver generators return, per AHU, an `OutFile` (the AHU's file or the unmapped-VAVs file) with its entries (`DriverCg.Output`) or its mapper (`DriverSrcJson.Written`);
  - the economizer and RCx generators return (file name, configuration) pairs, and the config_generators RCx generator also its metadata;
  - the ILC run returns its configurations as values (`ilc`, `control`, `criteria`) and, separately, the list of file names it would write (`Ilc.IlcRun.files`).
- The `unmapped_device_details` file is in none of these file lists. The unmapped table itself is returned, and the exit status is derived from it.
- The key order of `json.dump` output is modelled only for dictionaries built as insertion-ordered dictionaries (`ODicts`): the driver mappers, the ILC control and criteria configurations and the RCx metadata. A nested `Json.JObj` is an unordered map, so the order of its keys in the written file is not modelled.
- Tokens.ReplacePointNames: a dictionary search object is an error (`TypeError`) here. In Python, `replace_point_names` iterates its keys and returns the list of rewritten keys in insertion order. A dictionary reaches it when a condition's `operation`, `always` or `nc` entry is itself a JSON object. `Json.JObj` is an unordered map, so that order is not available. The same holds for Tokens.ReplacePointNamesSpec.
- Loading the configuration file is left out, together with the `ValueError` raised when a configuration lacks `config_template`. So is everything else that `__init__` reads from disk. The loaded configuration is an input.
- Database plumbing is left out: `psycopg2.connect`, `execute_query` and the SQL text. Each query's result is an input sequence of rows, keyed by the equipment and meta value it was asked for. A `NULL` `ahuRef` column is read as `""`.
- The `main()` entry points, `setup.py`, and the debug checks against a hard-coded id are left out. They are command-line, packaging and diagnostics only.
- `copy.deepcopy` is value semantics. `str.format` substitutes only the placeholders the generators use, and the regular expressions are written out as string functions.
- Collapse.SetToList: the order in which `list(set)` lists a set is Python's hash order, so the contract states only that every element appears exactly once. The collapsed RCx lists are therefore pinned only up to order.
- A Python exception is an `Err` carrying the exception's name. What an object holds after it raises is left open: the generator classes' methods state their new state on success only (RcxCg.RcxCgGenerator, RcxSrcJson.JsonRcxGenerator, EconSrcJson.JsonEconGenerator, DriverSrcJson.JsonDriver, DriverSrcFlat.FlatDriver).
- IlcCgJson.VavLookupAgrees: the JSON ILC VAV loops look up names in the point map that `generate_ilc_config` has already loaded, instead of calling `get_point_name` again. This lemma proves the two agree once the map is loaded. It does not cover a VAV loop run on an unloaded generator, which the source never does.
- The src ILC back-ends are not part of this model; only the src ILC base is. Its meter id, power point, VAV list and `get_point_name` are inputs.
- The base module that the src driver back-ends in `driver/intellimation` and `driver/config_from_json.py` import is not part of this model. Their topic patterns are taken to be `prefix + "{}"` for an AHU and `prefix + "{}/{}"` for a VAV, filled positionally.
- The src airside economizer JSON back-end imports an economizer base that is not part of this model. It is modelled over the config_generators economizer base (`Econ`), which has the same methods.
- DriverSrcJson.JsonDriver.constructor: the src JSON driver's `__init__` never sets `vav_list`, `ahu_list` or `unmapped_device_details`, so `get_ahu_and_vavs` raises `AttributeError` on every input (see Findings). The class starts them empty, as the other back-ends do, so that the rest of the generator can be modelled. `DriverSrcJson.GetAhuAndVavsAsWritten` models the code as written.
- DriverSrcJson.GroupRowsLists: states the grouping loop with the three attributes started empty (see Findings); the code as written raises `AttributeError` on the first VAV or AHU row.
- DriverSrcJson.GroupRowsUnmapped: states the grouping loop with the three attributes started empty (see Findings); the code as written raises `AttributeError` on the first VAV row.
- DriverSrcJson.AhuListKeys: states the grouping with `ahu_list` started empty (see Findings); the code as written raises `AttributeError` when it reads `self.ahu_list`.
- DriverSrcJson.JsonAhuAndVavsIntro: states the result of `get_ahu_and_vavs` with the three attributes started empty (see Findings); the code as written never returns.
- DriverSrcJson.JsonDriver.GetAhuAndVavs: models `get_ahu_and_vavs` with the three attributes started empty (see Findings); the code as written raises `AttributeError`.
- DriverSrcJson.JsonDriver.GroupRow: models one row of the grouping loop with the three attributes started empty (see Findings); the code as written raises `AttributeError` on a VAV or AHU row.
- DriverSrcJson.JsonDriver.GenerateConfigs: models `generate_configs` over the corrected `get_ahu_and_vavs` (see Findings); the code as written raises `AttributeError` in its first call.
- A role that is not a key of `point_meta_map` would be a `KeyError` in the ILC `get_point_name`. In `IlcCgDb.DbPointName` and `IlcCgJson.VavLookup` it gives `""`. The ILC loops only ask for roles of that map.

## Findings
| source | as written | input that shows it | evidently intended | confidence | as-written member | corrected member |
|---|---|---|---|---|---|---|
| src/volttron/haystack/parser/driver/json/config_from_json.py:23-62 | `__init__` (and the base `__init__`, src/volttron/haystack/parser/driver/config_base.py:13-55) never sets `self.vav_list`, `self.ahu_list` or `self.unmapped_device_details`, which `get_ahu_and_vavs` reads (lines 55-59) | any equipment document, even one with no rows: the check of `self.ahu_list` at line 59 raises `AttributeError` | the three attributes start empty: the lists as in src/volttron/haystack/parser/driver/config_from_json.py:37,39, the table as in config_generators/src/volttron/haystack/parser/driver/config_base.py:52; then it never raises (DriverSrcJson.FixedNeverRaises) | not executed | DriverSrcJson.AsWrittenAlwaysRaises | DriverSrcJson.JsonDriver.GetAhuAndVavs |
