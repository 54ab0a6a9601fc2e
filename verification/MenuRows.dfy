/**
 The rows a menu tree is built from, and the parent links between them.

 A row is one table record after serialisation: its id, its parent id, its sort key and the
 remaining columns. Ids are unique in a table, which every result below assumes by UniqueIds.
 */
module MenuRows {
  import opened Prelude

  datatype Value = Null | Int(i: int) | Str(s: string) | Bool(b: bool) | Meta(fields: map<string, Value>)

  datatype Row = Row(id: int, parentId: Option<int>, sort: int, columns: map<string, Value>)

  ghost predicate UniqueIds(rows: seq<Row>) {
    forall i, j :: 0 <= i < j < |rows| ==> rows[i].id != rows[j].id
  }

  ghost predicate HasId(rows: seq<Row>, id: int) {
    exists i :: 0 <= i < |rows| && rows[i].id == id
  }

  ghost function Ids(rows: seq<Row>): set<int> {
    set i | 0 <= i < |rows| :: rows[i].id
  }

  /** The position of the row that carries an id. */
  ghost function Find(rows: seq<Row>, id: int): (i: nat)
    requires HasId(rows, id)
    ensures i < |rows| && rows[i].id == id
  {
    var i :| 0 <= i < |rows| && rows[i].id == id; i
  }

  ghost function ParentOf(rows: seq<Row>, id: int): Option<int>
    requires HasId(rows, id)
  {
    rows[Find(rows, id)].parentId
  }

  lemma ParentOfRow(rows: seq<Row>, i: nat)
    requires UniqueIds(rows) && i < |rows|
    ensures HasId(rows, rows[i].id) && Find(rows, rows[i].id) == i
    ensures ParentOf(rows, rows[i].id) == rows[i].parentId
  {
  }

  // ---------------------------------------------------------------- climbing the parent links

  /** Following k parent links (k at least 1) from id arrives at target; None is "no parent". */
  ghost predicate Climbs(rows: seq<Row>, id: int, target: Option<int>, k: nat)
    decreases k
  {
    && k > 0
    && HasId(rows, id)
    && var parent := ParentOf(rows, id);
       if k == 1 then parent == target else parent.Some? && Climbs(rows, parent.value, target, k - 1)
  }

  ghost predicate Below(rows: seq<Row>, id: int, target: Option<int>) {
    exists k: nat :: Climbs(rows, id, target, k)
  }

  /** The id is reached again from itself. */
  ghost predicate OnCycle(rows: seq<Row>, id: int) {
    Below(rows, id, Some(id))
  }

  /** A place to start building from: None, the parent of the top rows, is on no cycle. */
  ghost predicate StartsOnCycle(rows: seq<Row>, start: Option<int>) {
    start.Some? && OnCycle(rows, start.value)
  }

  ghost predicate OnOrBelowCycle(rows: seq<Row>, id: int) {
    OnCycle(rows, id) || exists j: int :: Below(rows, id, Some(j)) && OnCycle(rows, j)
  }

  lemma {:induction false} ClimbsUnique(rows: seq<Row>, id: int, p: Option<int>, q: Option<int>, k: nat)
    requires Climbs(rows, id, p, k) && Climbs(rows, id, q, k)
    ensures p == q
    decreases k
  {
    if k > 1 {
      ClimbsUnique(rows, ParentOf(rows, id).value, p, q, k - 1);
    }
  }

  lemma {:induction false} ClimbsOn(rows: seq<Row>, id: int, mid: int, target: Option<int>, a: nat, b: nat)
    requires Climbs(rows, id, Some(mid), a) && Climbs(rows, mid, target, b)
    ensures Climbs(rows, id, target, a + b)
    decreases a
  {
    if a > 1 {
      ClimbsOn(rows, ParentOf(rows, id).value, mid, target, a - 1, b);
    }
  }

  /** A longer climb from id passes through whatever a shorter one reaches. */
  lemma {:induction false} ClimbsRest(rows: seq<Row>, id: int, mid: Option<int>, target: Option<int>, a: nat, n: nat)
    requires Climbs(rows, id, mid, a) && Climbs(rows, id, target, n) && a < n
    ensures mid.Some? && Climbs(rows, mid.value, target, n - a)
    decreases a
  {
    if a > 1 {
      ClimbsRest(rows, ParentOf(rows, id).value, mid, target, a - 1, n - 1);
    }
  }

  lemma BelowTransitive(rows: seq<Row>, id: int, mid: int, target: Option<int>)
    requires Below(rows, id, Some(mid)) && Below(rows, mid, target)
    ensures Below(rows, id, target)
  {
    var a: nat :| Climbs(rows, id, Some(mid), a);
    var b: nat :| Climbs(rows, mid, target, b);
    ClimbsOn(rows, id, mid, target, a, b);
  }

  /** Being below a target is being its child, or being below one of its children. */
  lemma BelowSplits(rows: seq<Row>, id: int, target: Option<int>)
    requires Below(rows, id, target)
    ensures HasId(rows, id)
    ensures ParentOf(rows, id) == target
            || exists c: int :: HasId(rows, c) && ParentOf(rows, c) == target && Below(rows, id, Some(c))
  {
    var k: nat :| Climbs(rows, id, target, k);
    if k > 1 {
      LastStep(rows, id, target, k);
    }
  }

  lemma {:induction false} LastStep(rows: seq<Row>, id: int, target: Option<int>, k: nat)
    requires k > 1 && Climbs(rows, id, target, k)
    ensures exists c: int :: HasId(rows, c) && ParentOf(rows, c) == target && Climbs(rows, id, Some(c), k - 1)
    decreases k
  {
    var up := ParentOf(rows, id).value;
    if k == 2 {
      assert Climbs(rows, id, Some(up), 1);
    } else {
      LastStep(rows, up, target, k - 1);
      var c: int :| HasId(rows, c) && ParentOf(rows, c) == target && Climbs(rows, up, Some(c), k - 2);
      assert Climbs(rows, id, Some(c), k - 1);
    }
  }

  lemma ChildIsBelow(rows: seq<Row>, i: nat)
    requires UniqueIds(rows) && i < |rows|
    ensures Below(rows, rows[i].id, rows[i].parentId)
  {
    ParentOfRow(rows, i);
    assert Climbs(rows, rows[i].id, rows[i].parentId, 1);
  }

  /** A child of an id that is on no cycle is on no cycle, and is not above that id. */
  lemma ChildOfAcyclic(rows: seq<Row>, i: nat)
    requires UniqueIds(rows) && i < |rows| && !StartsOnCycle(rows, rows[i].parentId)
    ensures !OnCycle(rows, rows[i].id)
    ensures rows[i].parentId.Some? ==>
              rows[i].id != rows[i].parentId.value && !Below(rows, rows[i].parentId.value, Some(rows[i].id))
  {
    var c, p := rows[i].id, rows[i].parentId;
    ChildIsBelow(rows, i);
    if p.Some? && (c == p.value || Below(rows, p.value, Some(c))) {
      if Below(rows, p.value, Some(c)) { BelowTransitive(rows, p.value, c, p); }
      assert false;
    }
    if Below(rows, c, Some(c)) {
      var k: nat :| Climbs(rows, c, Some(c), k);
      assert Climbs(rows, c, p, 1);
      if k > 1 {
        ClimbsRest(rows, c, p, Some(c), 1, k);
      }
      assert false;
    }
  }

  /** Below an acyclic target, an id hangs under exactly one of the target's children. */
  lemma OneBranch(rows: seq<Row>, id: int, c: int, d: int, target: Option<int>)
    requires HasId(rows, c) && HasId(rows, d)
    requires ParentOf(rows, c) == target && ParentOf(rows, d) == target && !StartsOnCycle(rows, target)
    requires id == c || Below(rows, id, Some(c))
    requires id == d || Below(rows, id, Some(d))
    ensures c == d
  {
    if c != d {
      if id == c {
        NotBelowSibling(rows, c, d, target);
      } else if id == d {
        NotBelowSibling(rows, d, c, target);
      } else {
        var a: nat :| Climbs(rows, id, Some(c), a);
        var b: nat :| Climbs(rows, id, Some(d), b);
        if a == b {
          ClimbsUnique(rows, id, Some(c), Some(d), a);
        } else if a < b {
          ClimbsRest(rows, id, Some(c), Some(d), a, b);
          NotBelowSibling(rows, c, d, target);
        } else {
          ClimbsRest(rows, id, Some(d), Some(c), b, a);
          NotBelowSibling(rows, d, c, target);
        }
      }
    }
  }

  lemma NotBelowSibling(rows: seq<Row>, c: int, d: int, target: Option<int>)
    requires HasId(rows, c) && HasId(rows, d)
    requires ParentOf(rows, c) == target && ParentOf(rows, d) == target && !StartsOnCycle(rows, target)
    requires c != d
    ensures !Below(rows, c, Some(d))
  {
    if Below(rows, c, Some(d)) {
      var k: nat :| Climbs(rows, c, Some(d), k);
      assert Climbs(rows, c, target, 1) && Climbs(rows, d, target, 1);
      if k == 1 {
        ClimbsUnique(rows, c, target, Some(d), 1);
      } else {
        ClimbsRest(rows, c, target, Some(d), 1, k);
        BelowTransitive(rows, target.value, d, target);
      }
      assert StartsOnCycle(rows, target);
    }
  }

  // ---------------------------------------------------------------- where every chain ends

  /** The one-pass builder makes a row a root when it has no parent id or names a missing row. */
  ghost predicate IsOrphan(rows: seq<Row>, row: Row) {
    row.parentId.Some? && !HasId(rows, row.parentId.value)
  }

  ghost predicate IsRoot(rows: seq<Row>, row: Row) {
    row.parentId.None? || IsOrphan(rows, row)
  }

  /** A row hangs in a tree whose root is rows[r], or is that root. */
  ghost predicate HangsFrom(rows: seq<Row>, id: int, r: nat)
    requires r < |rows|
  {
    IsRoot(rows, rows[r]) && (id == rows[r].id || Below(rows, id, Some(rows[r].id)))
  }

  /** Off every cycle, the parent links lead to a root. */
  lemma ReachesRoot(rows: seq<Row>, id: int)
    requires UniqueIds(rows) && HasId(rows, id) && !OnOrBelowCycle(rows, id)
    ensures exists r: nat :: r < |rows| && HangsFrom(rows, id, r)
  {
    ClimbToRoot(rows, id, id, {});
  }

  lemma {:induction false} ClimbToRoot(rows: seq<Row>, id: int, at: int, passed: set<int>)
    requires UniqueIds(rows) && !OnOrBelowCycle(rows, id)
    requires HasId(rows, at) && (at == id || Below(rows, id, Some(at)))
    requires passed <= Ids(rows) && forall v :: v in passed ==> Below(rows, v, Some(at))
    ensures exists r: nat :: r < |rows| && HangsFrom(rows, id, r)
    decreases |Ids(rows) - passed|
  {
    var i := Find(rows, at);
    if IsRoot(rows, rows[i]) {
      assert HangsFrom(rows, id, i);
    } else {
      var up := rows[i].parentId.value;
      ChildIsBelow(rows, i);
      if at in passed {
        assert false;
      }
      forall v | v in passed + {at} ensures Below(rows, v, Some(up)) {
        if v != at { BelowTransitive(rows, v, at, Some(up)); }
      }
      if at != id { BelowTransitive(rows, id, at, Some(up)); }
      assert at in Ids(rows);
      assert Ids(rows) - (passed + {at}) < Ids(rows) - passed;
      ProperSubsetSize(Ids(rows) - (passed + {at}), Ids(rows) - passed);
      ClimbToRoot(rows, id, up, passed + {at});
    }
  }

  /** A root is on no cycle and below no cycle, so nothing that hangs from it is. */
  lemma HangingIsOffCycles(rows: seq<Row>, id: int, r: nat)
    requires UniqueIds(rows) && r < |rows| && HangsFrom(rows, id, r)
    ensures !OnOrBelowCycle(rows, id)
  {
    var root := rows[r].id;
    RootClimbsOnce(rows, r);
    if OnOrBelowCycle(rows, id) {
      var j: int :| (j == id || Below(rows, id, Some(j))) && OnCycle(rows, j);
      assert OnCycle(rows, j);
      var b: nat :| Climbs(rows, j, Some(j), b);
      if j == root {
        assert false;
      }
      // climb from id far beyond the root by going round the cycle
      var m: nat :| (m == 0 && id == root) || Climbs(rows, id, Some(root), m);
      var n := RoundTheCycle(rows, id, j, m + 2);
      if m > 0 {
        ClimbsRest(rows, id, Some(root), Some(j), m, n);
      }
      assert false;
    }
  }

  lemma RootClimbsOnce(rows: seq<Row>, r: nat)
    requires UniqueIds(rows) && r < |rows| && IsRoot(rows, rows[r])
    ensures Climbs(rows, rows[r].id, rows[r].parentId, 1)
    ensures forall t: Option<int>, k: nat :: Climbs(rows, rows[r].id, t, k) ==> k == 1
  {
    ParentOfRow(rows, r);
  }

  lemma RoundTheCycle(rows: seq<Row>, id: int, j: int, least: nat) returns (n: nat)
    requires (j == id || Below(rows, id, Some(j))) && OnCycle(rows, j)
    ensures n >= least && Climbs(rows, id, Some(j), n)
  {
    var b: nat :| Climbs(rows, j, Some(j), b);
    if j == id {
      n := b;
    } else {
      n :| Climbs(rows, id, Some(j), n);
    }
    while n < least
      invariant Climbs(rows, id, Some(j), n)
      decreases least - n
    {
      ClimbsOn(rows, id, j, Some(j), n, b);
      n := n + b;
    }
  }
}
