/** Optional values and results with an error message (a Python exception). */
module Wrappers {

  datatype Option<T> = None | Some(value: T)

  datatype Result<T> = Ok(value: T) | Err(msg: string)
  {
    predicate IsFailure() { Err? }

    function PropagateFailure<U>(): Result<U>
      requires Err?
    {
      Err(msg)
    }

    function Extract(): T
      requires Ok?
    {
      value
    }
  }
}

/** The JSON values the generators read from templates and write to files,
    Python truthiness on them, and the table of unmapped-device details every
    generator keeps (`unmapped_device_details`, equipment id to a record). */
module Json {

  datatype Json =
    | JNull
    | JBool(b: bool)
    | JInt(i: int)
    | JReal(r: real)
    | JStr(s: string)
    | JArr(items: seq<Json>)
    | JObj(fields: map<string, Json>)

  /** Python's `bool(v)` on a decoded JSON value. */
  predicate Truthy(v: Json) {
    match v
    case JNull => false
    case JBool(b) => b
    case JInt(i) => i != 0
    case JReal(r) => r != 0.0
    case JStr(s) => s != ""
    case JArr(a) => a != []
    case JObj(o) => o != map[]
  }

  function StrItems(xs: seq<string>): (r: seq<Json>)
    ensures |r| == |xs|
    ensures forall i :: 0 <= i < |xs| ==> r[i] == JStr(xs[i])
  {
    if xs == [] then [] else [JStr(xs[0])] + StrItems(xs[1..])
  }

  /** A record of the unmapped-device table: a small dictionary. */
  type Record = map<string, Json>

  /** `unmapped_device_details`: equipment id to its record. */
  type Table = map<string, Record>

  /** `if not table.get(id)`: no record, or an empty one. */
  predicate HasRecord(t: Table, id: string) {
    id in t && t[id] != map[]
  }

  /** The "create only if absent" writes: an existing non-empty record is kept. */
  function RecordIfAbsent(t: Table, id: string, rec: Record): (r: Table)
    ensures id in r
    ensures HasRecord(t, id) ==> r == t
    ensures !HasRecord(t, id) ==> r == t[id := rec]
  {
    if HasRecord(t, id) then t else t[id := rec]
  }

  /** A "create only if absent" write adds `id` and changes no other
      record; an existing non-empty record survives it, and so does the one
      it writes, so the first non-empty record written wins. */
  lemma RecordIfAbsentSpec(t: Table, id: string, rec: Record, rec2: Record)
    ensures var r := RecordIfAbsent(t, id, rec);
      r.Keys == t.Keys + {id} &&
      (forall k :: k in t && k != id ==> r[k] == t[k]) &&
      r[id] == (if HasRecord(t, id) then t[id] else rec) &&
      (HasRecord(r, id) ==> RecordIfAbsent(r, id, rec2) == r)
  {
  }

  /** "Create only if absent" writes for different ids commute. */
  lemma RecordIfAbsentCommute(t: Table, a: string, ra: Record, b: string, rb: Record)
    requires a != b
    ensures RecordIfAbsent(RecordIfAbsent(t, a, ra), b, rb) == RecordIfAbsent(RecordIfAbsent(t, b, rb), a, ra)
  {
    assert HasRecord(RecordIfAbsent(t, b, rb), a) == HasRecord(t, a);
    assert HasRecord(RecordIfAbsent(t, a, ra), b) == HasRecord(t, b);
  }

  /** `if not table.get(id): table[id] = dict()` followed by
      `table[id][key] = v` for each field: the fields are set on top of the
      existing record when it is non-empty and on a fresh record otherwise. */
  function Mark(t: Table, id: string, fields: Record): Table {
    t[id := (if HasRecord(t, id) then t[id] else map[]) + fields]
  }

  /** Only the equipment's record changes: it ends non-empty when fields are
      written, holding every written field and every other field it had. */
  lemma MarkSpec(t: Table, id: string, fields: Record)
    ensures var r := Mark(t, id, fields);
      r.Keys == t.Keys + {id} &&
      (forall k :: k in t && k != id ==> r[k] == t[k]) &&
      (forall key :: key in fields ==> key in r[id] && r[id][key] == fields[key]) &&
      (HasRecord(t, id) ==> forall key :: key in t[id] && key !in fields ==> key in r[id] && r[id][key] == t[id][key]) &&
      (!HasRecord(t, id) ==> r[id].Keys == fields.Keys) &&
      (fields != map[] ==> HasRecord(r, id))
  {
    if fields != map[] {
      var key :| key in fields;
      assert key in Mark(t, id, fields)[id];
    }
  }

  /** `for id in ids: table[id] = rec`: every listed id ends with `rec`, and
      every other record is untouched. */
  function Overwrite(t: Table, ids: seq<string>, rec: Record): (r: Table)
    ensures r.Keys == t.Keys + set i | 0 <= i < |ids| :: ids[i]
    ensures forall i :: 0 <= i < |ids| ==> r[ids[i]] == rec
    ensures forall k :: k in t && k !in ids ==> r[k] == t[k]
    decreases |ids|
  {
    if ids == [] then t
    else Overwrite(t[ids[0] := rec], ids[1..], rec)
  }

  /** `sys.exit(1)` when the table is non-empty, else `sys.exit(0)`. */
  function ExitStatus(t: Table): (code: int)
    ensures code == 0 || code == 1
    ensures code == 1 <==> t != map[]
  {
    if t == map[] then 0 else 1
  }

  /** Recording an equipment forces exit status 1, and a table that only
      gains records never goes back from 1 to 0. */
  lemma ExitStatusMonotone(t: Table, t2: Table, id: string, rec: Record)
    ensures ExitStatus(t[id := rec]) == 1
    ensures t.Keys <= t2.Keys ==> ExitStatus(t) <= ExitStatus(t2)
  {
    assert id in t[id := rec];
    if t.Keys <= t2.Keys && t != map[] {
      var k :| k in t;
      assert k in t2;
    }
  }

  /** `{"type": type, "error": error}` */
  function ErrorRecord(equipType: string, error: string): Record {
    map["type" := JStr(equipType), "error" := JStr(error)]
  }

  /** `{"type": type, "error": error, "topic_name": topic}` */
  function TopicRecord(equipType: string, error: string, topic: Json): Record {
    map["type" := JStr(equipType), "error" := JStr(error), "topic_name" := topic]
  }

  /** Python's `str(list_of_str)` for strings free of quotes and backslashes:
      `['a', 'b']`. */
  function ReprList(xs: seq<string>): string {
    "[" + ReprItems(xs) + "]"
  }

  function ReprItems(xs: seq<string>): string {
    if xs == [] then ""
    else if |xs| == 1 then "'" + xs[0] + "'"
    else "'" + xs[0] + "', " + ReprItems(xs[1..])
  }

  /** A topic map entry as a JSON value (`dict` of meta value to topic). */
  function StrMap(m: map<string, string>): (r: Json)
    ensures r.JObj? && r.fields.Keys == m.Keys
    ensures forall k :: k in m ==> r.fields[k] == JStr(m[k])
  {
    JObj(map k | k in m :: JStr(m[k]))
  }
}
