/** The stable sort that get_tree_nodes asks the language's list sort for. */
module RowSort {
  import opened Prelude
  import opened MenuRows
  import opened MenuForest

  function InsertRow(rows: seq<Row>, row: Row): seq<Row> {
    if rows == [] || rows[|rows| - 1].sort <= row.sort then rows + [row]
    else InsertRow(rows[..|rows| - 1], row) + [rows[|rows| - 1]]
  }

  function StableSort(rows: seq<Row>): seq<Row> {
    if rows == [] then []
    else InsertRow(StableSort(rows[..|rows| - 1]), rows[|rows| - 1])
  }

  /** The rows with one sort key, in the order of the list. */
  ghost function WithSort(rows: seq<Row>, key: int): seq<Row> {
    if rows == [] then []
    else
      var last := rows[|rows| - 1];
      WithSort(rows[..|rows| - 1], key) + if last.sort == key then [last] else []
  }

  lemma WithSortSnoc(rows: seq<Row>, row: Row, key: int)
    ensures WithSort(rows + [row], key) == WithSort(rows, key) + if row.sort == key then [row] else []
  {
    assert (rows + [row])[..|rows|] == rows;
  }

  lemma {:induction false} WithSortAbsent(rows: seq<Row>, key: int)
    requires forall row :: row in rows ==> row.sort != key
    ensures WithSort(rows, key) == []
  {
    if rows != [] { WithSortAbsent(rows[..|rows| - 1], key); }
  }

  lemma {:induction false} InsertSorts(rows: seq<Row>, row: Row)
    requires SortedRows(rows)
    ensures SortedRows(InsertRow(rows, row))
    ensures forall r :: r in InsertRow(rows, row) <==> r in rows || r == row
    ensures |InsertRow(rows, row)| == |rows| + 1
  {
    if rows != [] && !(rows[|rows| - 1].sort <= row.sort) {
      var front, last := rows[..|rows| - 1], rows[|rows| - 1];
      InsertSorts(front, row);
      forall r | r in InsertRow(front, row) ensures r.sort <= last.sort {
        assert r == row || r in front;
      }
      var head := InsertRow(front, row);
      forall i, j | 0 <= i < j < |head| + 1 ensures (head + [last])[i].sort <= (head + [last])[j].sort {
        assert head[i] in head;
      }
    }
  }

  lemma {:induction false} InsertIsStable(rows: seq<Row>, row: Row, key: int)
    requires SortedRows(rows)
    ensures WithSort(InsertRow(rows, row), key) == WithSort(rows + [row], key)
  {
    WithSortSnoc(rows, row, key);
    if rows != [] && !(rows[|rows| - 1].sort <= row.sort) {
      var front, last := rows[..|rows| - 1], rows[|rows| - 1];
      InsertIsStable(front, row, key);
      WithSortSnoc(front, row, key);
      WithSortSnoc(InsertRow(front, row), last, key);
    }
  }

  lemma {:induction false} InsertKeepsIds(rows: seq<Row>, row: Row)
    requires SortedRows(rows) && UniqueIds(rows) && forall r :: r in rows ==> r.id != row.id
    ensures UniqueIds(InsertRow(rows, row))
  {
    if rows != [] && !(rows[|rows| - 1].sort <= row.sort) {
      var front, last := rows[..|rows| - 1], rows[|rows| - 1];
      InsertKeepsIds(front, row);
      InsertSorts(front, row);
      var head := InsertRow(front, row);
      forall i | 0 <= i < |head| ensures head[i].id != last.id {
        assert head[i] in head;
        assert head[i] == row || exists j :: 0 <= j < |front| && front[j] == head[i];
      }
      assert InsertRow(rows, row) == head + [last];
    }
  }

  /** Sorting orders by sort key, keeps exactly the rows given, and keeps ties in row order. */
  lemma {:induction false} StableSortSorts(rows: seq<Row>)
    ensures SortedRows(StableSort(rows)) && |StableSort(rows)| == |rows|
    ensures forall r :: r in StableSort(rows) <==> r in rows
    ensures forall key :: WithSort(StableSort(rows), key) == WithSort(rows, key)
    ensures UniqueIds(rows) ==> UniqueIds(StableSort(rows))
  {
    if rows != [] {
      var front, last := rows[..|rows| - 1], rows[|rows| - 1];
      assert rows == front + [last];
      StableSortSorts(front);
      InsertSorts(StableSort(front), last);
      forall key ensures WithSort(StableSort(rows), key) == WithSort(rows, key) {
        InsertIsStable(StableSort(front), last, key);
        WithSortSnoc(StableSort(front), last, key);
        WithSortSnoc(front, last, key);
      }
      if UniqueIds(rows) {
        forall r | r in front ensures r.id != last.id {
          var j :| 0 <= j < |front| && front[j] == r;
          assert rows[j] == r;
        }
        InsertKeepsIds(StableSort(front), last);
      }
    }
  }

  /** Sorted order plus row order within each key determines the list, whatever sort computed it. */
  lemma {:induction false} StableOrderUnique(a: seq<Row>, b: seq<Row>)
    requires SortedRows(a) && SortedRows(b)
    requires forall key :: WithSort(a, key) == WithSort(b, key)
    ensures a == b
  {
    if a == [] && b == [] {
    } else if a == [] {
      WithSortLast(b, b[|b| - 1].sort);
    } else if b == [] {
      WithSortLast(a, a[|a| - 1].sort);
    } else {
      LastKeyBounds(a, b);
      LastKeyBounds(b, a);
      var x, y := a[|a| - 1], b[|b| - 1];
      var front, front' := a[..|a| - 1], b[..|b| - 1];
      forall key ensures x == y && WithSort(front, key) == WithSort(front', key) {
        WithSortLast(a, x.sort);
        WithSortLast(b, x.sort);
        WithSortLast(a, key);
        WithSortLast(b, key);
      }
      assert WithSort(front, x.sort) == WithSort(front', x.sort);
      StableOrderUnique(front, front');
    }
  }

  lemma WithSortLast(rows: seq<Row>, key: int)
    requires rows != []
    ensures var last, found := rows[|rows| - 1], WithSort(rows, key);
            if last.sort == key then
              found != [] && found[|found| - 1] == last && WithSort(rows[..|rows| - 1], key) == found[..|found| - 1]
            else WithSort(rows[..|rows| - 1], key) == found
  {
  }

  lemma LastKeyBounds(a: seq<Row>, b: seq<Row>)
    requires a != [] && b != [] && SortedRows(b)
    requires WithSort(a, a[|a| - 1].sort) == WithSort(b, a[|a| - 1].sort)
    ensures a[|a| - 1].sort <= b[|b| - 1].sort
  {
    var key := a[|a| - 1].sort;
    if b[|b| - 1].sort < key {
      WithSortAbsent(b, key);
    }
  }
}
