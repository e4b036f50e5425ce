/**
 * The hosted `jobs` table as the screens and services use it. The store's own
 * semantics are model assumptions: insert appends a row under a fresh id and
 * stamps it later than every earlier row; `eq` keeps the rows whose column
 * equals the value exactly; `update(...).eq(...)` patches every matching row;
 * `order('created_at', desc)` lists the newest row first.
 */
module JobsTable {
  import opened Wrappers

  /** A column value as sent to the store. */
  datatype Value = Str(s: string) | Num(n: real) | Null

  /** A row's columns; a column the row does not hold reads as `Null`. */
  type Row = map<string, Value>

  /** A row as a select returns it: the store-assigned id and creation stamp, and the columns. */
  datatype Record = Record(id: string, createdAt: nat, fields: Row)

  function Column(fields: Row, col: string): Value
  {
    if col in fields then fields[col] else Null
  }

  /** The `eq(col, v)` filter. The column "id" is the store-assigned key; a null never compares equal. */
  predicate Matches(id: string, fields: Row, col: string, v: Value)
  {
    v != Null && (if col == "id" then v == Str(id) else Column(fields, col) == v)
  }

  predicate RecordMatches(rec: Record, col: string, v: Value)
  {
    Matches(rec.id, rec.fields, col, v)
  }

  /** The rows `eq(col, v)` keeps, in the order given. */
  function Where(rs: seq<Record>, col: string, v: Value): seq<Record>
  {
    if rs == [] then []
    else
      var last := rs[|rs| - 1];
      Where(rs[..|rs| - 1], col, v) + (if RecordMatches(last, col, v) then [last] else [])
  }

  /** A row is selected exactly when it is in the table and matches the filter. */
  lemma {:induction false} WhereMembers(rs: seq<Record>, col: string, v: Value, x: Record)
    ensures x in Where(rs, col, v) <==> x in rs && RecordMatches(x, col, v)
  {
    if rs != [] {
      var init := rs[..|rs| - 1];
      WhereMembers(init, col, v, x);
      assert rs == init + [rs[|rs| - 1]];
    }
  }

  /** Selecting keeps the table's order: increasing creation stamps stay increasing. */
  lemma {:induction false} WhereKeepsOrder(rs: seq<Record>, col: string, v: Value)
    requires Increasing(rs)
    ensures Increasing(Where(rs, col, v))
  {
    if rs != [] {
      var init := rs[..|rs| - 1];
      WhereKeepsOrder(init, col, v);
      forall x | x in Where(init, col, v) ensures x.createdAt < rs[|rs| - 1].createdAt {
        WhereMembers(init, col, v, x);
      }
    }
  }

  ghost predicate Increasing(rs: seq<Record>)
  {
    forall i, j :: 0 <= i < j < |rs| ==> rs[i].createdAt < rs[j].createdAt
  }

  ghost predicate Decreasing(rs: seq<Record>)
  {
    forall i, j :: 0 <= i < j < |rs| ==> rs[i].createdAt > rs[j].createdAt
  }

  function Reverse(rs: seq<Record>): (r: seq<Record>)
    ensures |r| == |rs|
    ensures forall k :: 0 <= k < |rs| ==> r[k] == rs[|rs| - 1 - k]
  {
    if rs == [] then [] else [rs[|rs| - 1]] + Reverse(rs[..|rs| - 1])
  }

  /** The whole table in insertion order; the creation stamp of a row is its position. */
  function SnapshotOf(order: seq<string>, rows: map<string, Row>): seq<Record>
    requires forall k :: 0 <= k < |order| ==> order[k] in rows
  {
    seq(|order|, k requires 0 <= k < |order| => Record(order[k], k, rows[order[k]]))
  }

  /** Creation stamps increase in insertion order, and distinct ids in the order give distinct records. */
  lemma SnapshotIncreasing(order: seq<string>, rows: map<string, Row>)
    requires forall k :: 0 <= k < |order| ==> order[k] in rows
    ensures Increasing(SnapshotOf(order, rows))
    ensures (forall i, j :: 0 <= i < j < |order| ==> order[i] != order[j]) ==>
      forall i, j :: 0 <= i < j < |order| ==> SnapshotOf(order, rows)[i].id != SnapshotOf(order, rows)[j].id
  {
  }

  /** The result of `update(patch).eq(col, v)`: every matching row takes the patch's columns. */
  function Patched(rows: map<string, Row>, col: string, v: Value, patch: Row): (r: map<string, Row>)
    ensures r.Keys == rows.Keys
    ensures forall id :: id in rows && Matches(id, rows[id], col, v) ==>
      forall c :: Column(r[id], c) == (if c in patch then patch[c] else Column(rows[id], c))
    ensures forall id :: id in rows && !Matches(id, rows[id], col, v) ==> r[id] == rows[id]
  {
    map id | id in rows :: if Matches(id, rows[id], col, v) then rows[id] + patch else rows[id]
  }

  class Table {
    /** Row ids in insertion (creation) order. */
    var order: seq<string>
    /** The rows, by id. */
    var rows: map<string, Row>

    ghost predicate Valid()
      reads this
    {
      && (forall i, j :: 0 <= i < j < |order| ==> order[i] != order[j])
      && (forall k :: 0 <= k < |order| ==> order[k] in rows)
      && (forall id :: id in rows ==> id in order)
    }

    function Snapshot(): (s: seq<Record>)
      reads this
      requires Valid()
      ensures |s| == |order|
    {
      SnapshotOf(order, rows)
    }

    constructor ()
      ensures Valid() && order == [] && rows == map[]
    {
      order := [];
      rows := map[];
    }

    /** `insert([fields])`: the store picks a fresh id and stamps the row after every earlier one. */
    method Insert(fields: Row, freshId: string)
      requires Valid() && freshId !in rows
      modifies this
      ensures Valid()
      ensures order == old(order) + [freshId] && rows == old(rows)[freshId := fields]
      ensures Snapshot() == old(Snapshot()) + [Record(freshId, |old(order)|, fields)]
    {
      order := order + [freshId];
      rows := rows[freshId := fields];
    }

    /** `select('*').eq(col, v)`: the matching rows in table order. */
    method Select(col: string, v: Value) returns (r: seq<Record>)
      requires Valid()
      ensures r == Where(Snapshot(), col, v)
    {
      var all := Snapshot();
      r := [];
      var i := 0;
      while i < |all|
        invariant 0 <= i <= |all|
        invariant r == Where(all[..i], col, v)
      {
        assert all[..i + 1][..i] == all[..i];
        if RecordMatches(all[i], col, v) {
          r := r + [all[i]];
        }
        i := i + 1;
      }
      assert all[..i] == all;
    }

    /** `select('*').eq(col, v).order('created_at', { ascending: false })`. */
    method SelectNewestFirst(col: string, v: Value) returns (r: seq<Record>)
      requires Valid()
      ensures r == Reverse(Where(Snapshot(), col, v))
      ensures Decreasing(r)
    {
      var matching := Select(col, v);
      SnapshotIncreasing(order, rows);
      WhereKeepsOrder(Snapshot(), col, v);
      r := Reverse(matching);
    }

    /** `update(patch).eq(col, v)`. */
    method Update(col: string, v: Value, patch: Row)
      requires Valid()
      modifies this
      ensures Valid()
      ensures order == old(order) && rows == Patched(old(rows), col, v, patch)
    {
      rows := Patched(rows, col, v, patch);
    }
  }
}
