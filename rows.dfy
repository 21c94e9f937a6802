/** The rows of the two JSON metadata documents (`equip_json["rows"]` and
    `points_json["rows"]`), with the fields the generators read. */
module Rows {
  import opened Wrappers
  import opened Strs
  import opened Names

  /** An equipment row: its `id`, the marker tags it carries (`"vav" in row`,
      `"ahu" in row`, a power-meter tag), and its `ahuRef` when the row has
      that key. */
  datatype EquipRow = EquipRow(id: string, tags: set<string>, ahuRef: Option<string>)

  /** A point row: its `id`, `equipRef` and `topic_name`, and the string
      fields a configured meta field can name (`row.get(point_meta_field)`). */
  datatype PointRow = PointRow(id: string, equipRef: string, topic: string, meta: map<string, string>)

  /** `row.get("ahuRef")` is truthy. */
  predicate HasAhuRef(r: EquipRow) {
    r.ahuRef.Some? && r.ahuRef.value != ""
  }

  /** `row.get("ahuRef", "")` */
  function AhuRefOr(r: EquipRow): string {
    if r.ahuRef.Some? then r.ahuRef.value else ""
  }

  /** `row.get(field)` is truthy. */
  predicate HasMeta(p: PointRow, field: string) {
    field in p.meta && p.meta[field] != ""
  }

  /** `"vav" in row["id"].split(".")[-1]`: the classification by short id. */
  predicate ShortIdIsVav(r: EquipRow) {
    Contains(NameFromId(r.id), "vav")
  }

  /** The condition of a point query: the row belongs to the equipment and
      its meta field equals the meta value. */
  predicate Matches(p: PointRow, field: string, e: string, pt: string) {
    p.equipRef == e && field in p.meta && p.meta[field] == pt
  }

  /** The topics a point query returns, in table order. */
  function TopicQuery(rows: seq<PointRow>, field: string, e: string, pt: string): seq<string>
    decreases |rows|
  {
    if rows == [] then []
    else
      var n := |rows| - 1;
      TopicQuery(rows[..n], field, e, pt) + (if Matches(rows[n], field, e, pt) then [rows[n].topic] else [])
  }

  /** The query result is empty exactly when no row matches, and otherwise
      starts with the topic of the first matching row. */
  lemma {:induction false} TopicQueryFirst(rows: seq<PointRow>, field: string, e: string, pt: string)
    ensures TopicQuery(rows, field, e, pt) == [] <==> forall i :: 0 <= i < |rows| ==> !Matches(rows[i], field, e, pt)
    ensures forall i :: 0 <= i < |rows| && Matches(rows[i], field, e, pt) && (forall j :: 0 <= j < i ==> !Matches(rows[j], field, e, pt)) ==>
      TopicQuery(rows, field, e, pt)[0] == rows[i].topic
    decreases |rows|
  {
    if rows != [] {
      var n := |rows| - 1;
      TopicQueryFirst(rows[..n], field, e, pt);
      assert forall i :: 0 <= i < n ==> rows[..n][i] == rows[i];
    }
  }

  /** A query that exactly one row matches returns that row's topic alone. */
  lemma {:induction false} TopicQueryOne(rows: seq<PointRow>, field: string, e: string, pt: string, i: nat)
    requires i < |rows| && Matches(rows[i], field, e, pt)
    requires forall j :: 0 <= j < |rows| && j != i ==> !Matches(rows[j], field, e, pt)
    ensures TopicQuery(rows, field, e, pt) == [rows[i].topic]
    decreases |rows|
  {
    var n := |rows| - 1;
    assert forall k :: 0 <= k < n ==> rows[..n][k] == rows[k];
    if i == n {
      TopicQueryFirst(rows[..n], field, e, pt);
    } else {
      TopicQueryOne(rows[..n], field, e, pt, i);
    }
  }

  /** Two matching rows give at least two topics. */
  lemma {:induction false} TopicQueryTwo(rows: seq<PointRow>, field: string, e: string, pt: string, i: nat, j: nat)
    requires i < j < |rows| && Matches(rows[i], field, e, pt) && Matches(rows[j], field, e, pt)
    ensures |TopicQuery(rows, field, e, pt)| >= 2
    decreases |rows|
  {
    var n := |rows| - 1;
    assert forall k :: 0 <= k < n ==> rows[..n][k] == rows[k];
    if j == n {
      TopicQueryFirst(rows[..n], field, e, pt);
    } else {
      TopicQueryTwo(rows[..n], field, e, pt, i, j);
    }
  }

  /** A query with one topic has exactly one matching row, and the topic is
      that row's. */
  lemma {:induction false} TopicQuerySingle(rows: seq<PointRow>, field: string, e: string, pt: string)
    requires |TopicQuery(rows, field, e, pt)| == 1
    ensures exists i :: (0 <= i < |rows| && Matches(rows[i], field, e, pt) &&
                         (forall j :: 0 <= j < |rows| && j != i ==> !Matches(rows[j], field, e, pt)) &&
                         TopicQuery(rows, field, e, pt) == [rows[i].topic])
    decreases |rows|
  {
    var n := |rows| - 1;
    assert forall k :: 0 <= k < n ==> rows[..n][k] == rows[k];
    if Matches(rows[n], field, e, pt) {
      TopicQueryFirst(rows[..n], field, e, pt);
      assert TopicQuery(rows, field, e, pt) == [rows[n].topic];
    } else {
      TopicQuerySingle(rows[..n], field, e, pt);
      var i :| 0 <= i < n && Matches(rows[..n][i], field, e, pt) &&
        (forall j :: 0 <= j < n && j != i ==> !Matches(rows[..n][j], field, e, pt)) &&
        TopicQuery(rows[..n], field, e, pt) == [rows[..n][i].topic];
      assert Matches(rows[i], field, e, pt);
    }
  }
}
