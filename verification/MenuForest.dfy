/**
 The forest a list of rows stands for, as a value: what both tree builders must leave in the heap.

 Forest follows the recursive reading (the children of a parent, in row order, each with its own
 children); Recurse is the same reading with a bounded call stack, which is how the program runs.
 */
module MenuForest {
  import opened Prelude
  import opened MenuRows

  datatype Tree = Tree(row: Row, children: seq<Tree>)

  /** The ids at or above a place in the parent chain. */
  ghost function Above(rows: seq<Row>, at: Option<int>): set<int> {
    set i | i in Ids(rows) && at.Some? && (at.value == i || Below(rows, at.value, Some(i)))
  }

  /** How many ids are not yet on the path from the top: the depth the recursion can still go. */
  ghost function Room(rows: seq<Row>, at: Option<int>): nat {
    |Ids(rows) - Above(rows, at)|
  }

  lemma AboveGrows(rows: seq<Row>, i: nat)
    requires UniqueIds(rows) && i < |rows| && !StartsOnCycle(rows, rows[i].parentId)
    ensures !StartsOnCycle(rows, Some(rows[i].id))
    ensures Room(rows, Some(rows[i].id)) < Room(rows, rows[i].parentId)
  {
    var c, p := rows[i].id, rows[i].parentId;
    ChildOfAcyclic(rows, i);
    ChildIsBelow(rows, i);
    forall a | a in Above(rows, p) ensures a in Above(rows, Some(c)) {
      if a != p.value { BelowTransitive(rows, c, p.value, Some(a)); }
    }
    assert c in Ids(rows) && c in Above(rows, Some(c)) && c !in Above(rows, p);
    ProperSubsetSize(Ids(rows) - Above(rows, Some(c)), Ids(rows) - Above(rows, p));
  }

  /** The trees of those among the first n rows whose parent is the given one, in row order. */
  ghost function Forest(rows: seq<Row>, parent: Option<int>, n: nat): seq<Tree>
    requires UniqueIds(rows) && n <= |rows| && !StartsOnCycle(rows, parent)
    decreases Room(rows, parent), n
  {
    if n == 0 then []
    else if rows[n - 1].parentId == parent then
      AboveGrows(rows, n - 1);
      Forest(rows, parent, n - 1) + [Tree(rows[n - 1], Forest(rows, Some(rows[n - 1].id), |rows|))]
    else Forest(rows, parent, n - 1)
  }

  lemma RootOffCycle(rows: seq<Row>, i: nat)
    requires UniqueIds(rows) && i < |rows| && IsRoot(rows, rows[i])
    ensures !StartsOnCycle(rows, Some(rows[i].id))
  {
    HangingIsOffCycles(rows, rows[i].id, i);
  }

  /** What the one-pass builder stands for: one tree per root, orphans included. */
  ghost function TraversalForest(rows: seq<Row>, n: nat): seq<Tree>
    requires UniqueIds(rows) && n <= |rows|
  {
    if n == 0 then []
    else if IsRoot(rows, rows[n - 1]) then
      RootOffCycle(rows, n - 1);
      TraversalForest(rows, n - 1) + [Tree(rows[n - 1], Forest(rows, Some(rows[n - 1].id), |rows|))]
    else TraversalForest(rows, n - 1)
  }

  // ---------------------------------------------------------------- the two builders agree

  ghost function WithoutOrphanTrees(forest: seq<Tree>): seq<Tree> {
    if forest == [] then []
    else
      var last := forest[|forest| - 1];
      WithoutOrphanTrees(forest[..|forest| - 1]) + if last.row.parentId.None? then [last] else []
  }

  /** Started from None, the recursion gives the one-pass forest without the orphan-rooted trees. */
  lemma {:induction false} RecursiveIsTraversalWithoutOrphans(rows: seq<Row>, n: nat)
    requires UniqueIds(rows) && n <= |rows|
    ensures Forest(rows, None, n) == WithoutOrphanTrees(TraversalForest(rows, n))
  {
    if n > 0 {
      RecursiveIsTraversalWithoutOrphans(rows, n - 1);
      if IsRoot(rows, rows[n - 1]) {
        var shorter := TraversalForest(rows, n - 1);
        var longer := TraversalForest(rows, n);
        assert longer[..|longer| - 1] == shorter;
      }
    }
  }

  /** With every named parent present, the two forests are equal, cycles or not. */
  lemma {:induction false} BuildersAgree(rows: seq<Row>, n: nat)
    requires UniqueIds(rows) && n <= |rows|
    requires forall row :: row in rows ==> !IsOrphan(rows, row)
    ensures TraversalForest(rows, n) == Forest(rows, None, n)
  {
    if n > 0 {
      BuildersAgree(rows, n - 1);
      assert rows[n - 1] in rows;
    }
  }

  // ---------------------------------------------------------------- recursion with a call stack

  /** The recursion with at most depth nested calls; None when the stack runs out. */
  function Recurse(rows: seq<Row>, parent: Option<int>, n: nat, depth: nat): Option<seq<Tree>>
    requires n <= |rows|
    decreases depth, n
  {
    if depth == 0 then None
    else if n == 0 then Some([])
    else
      match Recurse(rows, parent, n - 1, depth)
      case None => None
      case Some(trees) =>
        if rows[n - 1].parentId != parent then Some(trees)
        else
          match Recurse(rows, Some(rows[n - 1].id), |rows|, depth - 1)
          case None => None
          case Some(children) => Some(trees + [Tree(rows[n - 1], children)])
  }

  /** Enough depth: one call per id not yet above the start, and one more. */
  lemma {:induction false} RecursionGivesForest(rows: seq<Row>, parent: Option<int>, n: nat, depth: nat)
    requires UniqueIds(rows) && n <= |rows| && !StartsOnCycle(rows, parent)
    requires depth > Room(rows, parent)
    ensures Recurse(rows, parent, n, depth) == Some(Forest(rows, parent, n))
    decreases depth, n
  {
    if n > 0 {
      RecursionGivesForest(rows, parent, n - 1, depth);
      if rows[n - 1].parentId == parent {
        AboveGrows(rows, n - 1);
        RecursionGivesForest(rows, Some(rows[n - 1].id), |rows|, depth - 1);
      }
    }
  }

  /** Started on a cycle, no depth is enough. */
  lemma {:induction false} RecursionOverflows(rows: seq<Row>, id: int, depth: nat)
    requires UniqueIds(rows) && OnCycle(rows, id)
    ensures Recurse(rows, Some(id), |rows|, depth).None?
    decreases depth
  {
    if depth > 0 {
      var c := CycleChild(rows, id);
      RecursionOverflows(rows, c, depth - 1);
      var i := Find(rows, c);
      ParentOfRow(rows, i);
      OverflowSpreads(rows, Some(id), i, |rows|, depth);
    }
  }

  lemma {:induction false} OverflowSpreads(rows: seq<Row>, parent: Option<int>, i: nat, n: nat, depth: nat)
    requires i < n <= |rows| && depth > 0 && rows[i].parentId == parent
    requires Recurse(rows, Some(rows[i].id), |rows|, depth - 1).None?
    ensures Recurse(rows, parent, n, depth).None?
    decreases n
  {
    if n > i + 1 { OverflowSpreads(rows, parent, i, n - 1, depth); }
  }

  /** An id on a cycle has a child on the same cycle. */
  lemma CycleChild(rows: seq<Row>, id: int) returns (c: int)
    requires UniqueIds(rows) && OnCycle(rows, id)
    ensures HasId(rows, c) && ParentOf(rows, c) == Some(id) && OnCycle(rows, c)
  {
    BelowSplits(rows, id, Some(id));
    if ParentOf(rows, id) == Some(id) {
      c := id;
    } else {
      c :| HasId(rows, c) && ParentOf(rows, c) == Some(id) && Below(rows, id, Some(c));
      assert Climbs(rows, c, Some(id), 1);
      assert Below(rows, c, Some(id));
      BelowTransitive(rows, c, id, Some(c));
    }
  }

  lemma IdsCount(rows: seq<Row>)
    ensures |Ids(rows)| <= |rows|
  {
    if rows != [] {
      var shorter := rows[..|rows| - 1];
      IdsCount(shorter);
      assert Ids(rows) == Ids(shorter) + {rows[|rows| - 1].id} by {
        assert forall i :: 0 <= i < |shorter| ==> rows[i] == shorter[i];
      }
    }
  }

  /**
   The recursion returns exactly when it is not started on a cycle, whatever cycles the rows hold,
   and then one nested call per row and one more are enough.
   */
  lemma RecursionReturnsIff(rows: seq<Row>, parent: Option<int>)
    requires UniqueIds(rows)
    ensures (exists depth: nat :: Recurse(rows, parent, |rows|, depth).Some?) <==> !StartsOnCycle(rows, parent)
    ensures !StartsOnCycle(rows, parent) ==>
              Recurse(rows, parent, |rows|, |rows| + 1) == Some(Forest(rows, parent, |rows|))
  {
    if StartsOnCycle(rows, parent) {
      forall depth: nat ensures Recurse(rows, parent, |rows|, depth).None? {
        RecursionOverflows(rows, parent.value, depth);
      }
    } else {
      IdsCount(rows);
      SubsetSize(Ids(rows) - Above(rows, parent), Ids(rows));
      RecursionGivesForest(rows, parent, |rows|, |rows| + 1);
    }
  }

  // ---------------------------------------------------------------- conservation

  /** How often an id occurs anywhere in a forest. */
  ghost function Occurrences(forest: seq<Tree>, id: int): nat {
    if forest == [] then 0
    else
      var last := forest[|forest| - 1];
      Occurrences(forest[..|forest| - 1], id) + (if last.row.id == id then 1 else 0) + Occurrences(last.children, id)
  }

  lemma OccurrencesSnoc(forest: seq<Tree>, last: Tree, id: int)
    ensures Occurrences(forest + [last], id)
         == Occurrences(forest, id) + (if last.row.id == id then 1 else 0) + Occurrences(last.children, id)
  {
    assert (forest + [last])[..|forest|] == forest;
  }

  /** id is, or hangs below, one of the first n rows, and that row's parent is the given one. */
  ghost predicate UnderFirst(rows: seq<Row>, parent: Option<int>, n: nat, id: int)
    requires n <= |rows|
  {
    exists i :: 0 <= i < n && rows[i].parentId == parent && (id == rows[i].id || Below(rows, id, Some(rows[i].id)))
  }

  lemma UnderAllIsBelow(rows: seq<Row>, parent: Option<int>, id: int)
    requires UniqueIds(rows)
    ensures UnderFirst(rows, parent, |rows|, id) <==> Below(rows, id, parent)
  {
    if UnderFirst(rows, parent, |rows|, id) {
      var i :| 0 <= i < |rows| && rows[i].parentId == parent && (id == rows[i].id || Below(rows, id, Some(rows[i].id)));
      ChildIsBelow(rows, i);
      if id != rows[i].id { BelowTransitive(rows, id, rows[i].id, parent); }
    }
    if Below(rows, id, parent) {
      BelowSplits(rows, id, parent);
      if ParentOf(rows, id) == parent {
        assert rows[Find(rows, id)].parentId == parent;
      } else {
        var c :| HasId(rows, c) && ParentOf(rows, c) == parent && Below(rows, id, Some(c));
        assert rows[Find(rows, c)].parentId == parent && rows[Find(rows, c)].id == c;
      }
    }
  }

  lemma UnderFirstStep(rows: seq<Row>, parent: Option<int>, n: nat, id: int)
    requires 0 < n <= |rows|
    ensures UnderFirst(rows, parent, n, id) <==>
            || UnderFirst(rows, parent, n - 1, id)
            || (rows[n - 1].parentId == parent && (id == rows[n - 1].id || Below(rows, id, Some(rows[n - 1].id))))
  {
  }

  lemma UnderOneOnly(rows: seq<Row>, parent: Option<int>, n: nat, id: int)
    requires UniqueIds(rows) && 0 < n <= |rows| && !StartsOnCycle(rows, parent)
    requires rows[n - 1].parentId == parent && (id == rows[n - 1].id || Below(rows, id, Some(rows[n - 1].id)))
    ensures !UnderFirst(rows, parent, n - 1, id)
  {
    if UnderFirst(rows, parent, n - 1, id) {
      var i :| 0 <= i < n - 1 && rows[i].parentId == parent && (id == rows[i].id || Below(rows, id, Some(rows[i].id)));
      ParentOfRow(rows, i);
      ParentOfRow(rows, n - 1);
      OneBranch(rows, id, rows[i].id, rows[n - 1].id, parent);
    }
  }

  lemma {:induction false} ForestOccurrences(rows: seq<Row>, parent: Option<int>, n: nat, id: int)
    requires UniqueIds(rows) && n <= |rows| && !StartsOnCycle(rows, parent)
    ensures Occurrences(Forest(rows, parent, n), id) == if UnderFirst(rows, parent, n, id) then 1 else 0
    decreases Room(rows, parent), n
  {
    if n > 0 {
      ForestOccurrences(rows, parent, n - 1, id);
      UnderFirstStep(rows, parent, n, id);
      var row := rows[n - 1];
      if row.parentId == parent {
        AboveGrows(rows, n - 1);
        ForestOccurrences(rows, Some(row.id), |rows|, id);
        UnderAllIsBelow(rows, Some(row.id), id);
        NotBelowSelf(rows, row.id);
        OccurrencesSnoc(Forest(rows, parent, n - 1), Tree(row, Forest(rows, Some(row.id), |rows|)), id);
        if id == row.id || Below(rows, id, Some(row.id)) {
          UnderOneOnly(rows, parent, n, id);
        }
      }
    }
  }

  lemma NotBelowSelf(rows: seq<Row>, id: int)
    requires !StartsOnCycle(rows, Some(id))
    ensures !Below(rows, id, Some(id))
  {
    assert !OnCycle(rows, id);
  }

  ghost predicate HangsFromFirst(rows: seq<Row>, n: nat, id: int)
    requires n <= |rows|
  {
    exists r: nat :: r < n && HangsFrom(rows, id, r)
  }

  lemma OneRoot(rows: seq<Row>, id: int, r: nat, t: nat)
    requires UniqueIds(rows) && r < |rows| && t < |rows| && HangsFrom(rows, id, r) && HangsFrom(rows, id, t)
    ensures r == t
  {
    var a, b := rows[r].id, rows[t].id;
    RootClimbsOnce(rows, r);
    RootClimbsOnce(rows, t);
    if a != b {
      var m: nat :| (m == 0 && id == a) || Climbs(rows, id, Some(a), m);
      var n: nat :| (n == 0 && id == b) || Climbs(rows, id, Some(b), n);
      if m == n {
        ClimbsUnique(rows, id, Some(a), Some(b), m);
      } else if 0 < m < n {
        ClimbsRest(rows, id, Some(a), Some(b), m, n);
      } else if 0 < n < m {
        ClimbsRest(rows, id, Some(b), Some(a), n, m);
      }
      assert false;
    }
  }

  lemma HangsFromOneOnly(rows: seq<Row>, n: nat, id: int)
    requires UniqueIds(rows) && 0 < n <= |rows|
    ensures HangsFromFirst(rows, n, id) <==> HangsFromFirst(rows, n - 1, id) || HangsFrom(rows, id, n - 1)
    ensures !(HangsFromFirst(rows, n - 1, id) && HangsFrom(rows, id, n - 1))
  {
    if HangsFromFirst(rows, n - 1, id) && HangsFrom(rows, id, n - 1) {
      var r: nat :| r < n - 1 && HangsFrom(rows, id, r);
      OneRoot(rows, id, r, n - 1);
    }
  }

  lemma RootTreeOccurrences(rows: seq<Row>, r: nat, id: int)
    requires UniqueIds(rows) && r < |rows| && IsRoot(rows, rows[r])
    ensures !StartsOnCycle(rows, Some(rows[r].id))
    ensures (if rows[r].id == id then 1 else 0) + Occurrences(Forest(rows, Some(rows[r].id), |rows|), id)
         == if HangsFrom(rows, id, r) then 1 else 0
  {
    RootOffCycle(rows, r);
    NotBelowSelf(rows, rows[r].id);
    ForestOccurrences(rows, Some(rows[r].id), |rows|, id);
    UnderAllIsBelow(rows, Some(rows[r].id), id);
  }

  lemma {:induction false} TraversalOccurrences(rows: seq<Row>, n: nat, id: int)
    requires UniqueIds(rows) && n <= |rows|
    ensures Occurrences(TraversalForest(rows, n), id) == if HangsFromFirst(rows, n, id) then 1 else 0
  {
    if n > 0 {
      TraversalOccurrences(rows, n - 1, id);
      HangsFromOneOnly(rows, n, id);
      if IsRoot(rows, rows[n - 1]) {
        RootTreeOccurrences(rows, n - 1, id);
        var forest, tree := TraversalForest(rows, n - 1), Tree(rows[n - 1], Forest(rows, Some(rows[n - 1].id), |rows|));
        assert TraversalForest(rows, n) == forest + [tree];
        OccurrencesSnoc(forest, tree, id);
      }
    }
  }

  /**
   Conservation: the one-pass forest holds every row that is neither on a cycle nor below one
   exactly once, and no other row at all.
   */
  lemma EachRowPlacedOnce(rows: seq<Row>, id: int)
    requires UniqueIds(rows) && HasId(rows, id)
    ensures Occurrences(TraversalForest(rows, |rows|), id) == if OnOrBelowCycle(rows, id) then 0 else 1
  {
    TraversalOccurrences(rows, |rows|, id);
    if OnOrBelowCycle(rows, id) {
      if HangsFromFirst(rows, |rows|, id) {
        var r: nat :| r < |rows| && HangsFrom(rows, id, r);
        HangingIsOffCycles(rows, id, r);
      }
    } else {
      ReachesRoot(rows, id);
    }
  }

  // ---------------------------------------------------------------- order

  /** At every level the trees stand in the order of their rows. */
  ghost predicate InRowOrder(rows: seq<Row>, forest: seq<Tree>) {
    && (forall t :: t in forest ==> HasId(rows, t.row.id) && rows[Find(rows, t.row.id)] == t.row)
    && (forall i, j :: 0 <= i < j < |forest| ==> Find(rows, forest[i].row.id) < Find(rows, forest[j].row.id))
    && (forall t :: t in forest ==> InRowOrder(rows, t.children))
  }

  /** At every level the sort keys never decrease. */
  ghost predicate SortedLevels(forest: seq<Tree>) {
    && (forall i, j :: 0 <= i < j < |forest| ==> forest[i].row.sort <= forest[j].row.sort)
    && (forall t :: t in forest ==> SortedLevels(t.children))
  }

  ghost predicate SortedRows(rows: seq<Row>) {
    forall i, j :: 0 <= i < j < |rows| ==> rows[i].sort <= rows[j].sort
  }

  ghost predicate FromFirst(rows: seq<Row>, n: nat, forest: seq<Tree>) {
    forall t :: t in forest ==> HasId(rows, t.row.id) && Find(rows, t.row.id) < n
  }

  lemma InRowOrderSnoc(rows: seq<Row>, forest: seq<Tree>, tree: Tree, n: nat)
    requires UniqueIds(rows) && 0 < n <= |rows| && tree.row == rows[n - 1]
    requires InRowOrder(rows, forest) && FromFirst(rows, n - 1, forest) && InRowOrder(rows, tree.children)
    ensures InRowOrder(rows, forest + [tree]) && FromFirst(rows, n, forest + [tree])
  {
    var longer := forest + [tree];
    ParentOfRow(rows, n - 1);
    forall t | t in longer
      ensures HasId(rows, t.row.id) && rows[Find(rows, t.row.id)] == t.row && Find(rows, t.row.id) < n
      ensures InRowOrder(rows, t.children)
    {
      assert t in forest || t == tree;
    }
    forall i, j | 0 <= i < j < |longer| ensures Find(rows, longer[i].row.id) < Find(rows, longer[j].row.id) {
      assert longer[i] in forest;
    }
  }

  lemma {:induction false} ForestInRowOrder(rows: seq<Row>, parent: Option<int>, n: nat)
    requires UniqueIds(rows) && n <= |rows| && !StartsOnCycle(rows, parent)
    ensures InRowOrder(rows, Forest(rows, parent, n)) && FromFirst(rows, n, Forest(rows, parent, n))
    decreases Room(rows, parent), n
  {
    if n > 0 {
      ForestInRowOrder(rows, parent, n - 1);
      var shorter, forest := Forest(rows, parent, n - 1), Forest(rows, parent, n);
      if rows[n - 1].parentId == parent {
        AboveGrows(rows, n - 1);
        ForestInRowOrder(rows, Some(rows[n - 1].id), |rows|);
        var tree := Tree(rows[n - 1], Forest(rows, Some(rows[n - 1].id), |rows|));
        InRowOrderSnoc(rows, shorter, tree, n);
        assert forest == shorter + [tree];
      } else {
        assert forest == shorter;
      }
    }
  }

  lemma {:induction false} TraversalInRowOrder(rows: seq<Row>, n: nat)
    requires UniqueIds(rows) && n <= |rows|
    ensures InRowOrder(rows, TraversalForest(rows, n)) && FromFirst(rows, n, TraversalForest(rows, n))
  {
    if n > 0 {
      TraversalInRowOrder(rows, n - 1);
      var shorter, forest := TraversalForest(rows, n - 1), TraversalForest(rows, n);
      if IsRoot(rows, rows[n - 1]) {
        RootOffCycle(rows, n - 1);
        ForestInRowOrder(rows, Some(rows[n - 1].id), |rows|);
        var tree := Tree(rows[n - 1], Forest(rows, Some(rows[n - 1].id), |rows|));
        InRowOrderSnoc(rows, shorter, tree, n);
        assert forest == shorter + [tree];
      } else {
        assert forest == shorter;
      }
    }
  }

  lemma {:induction false} RowOrderIsSorted(rows: seq<Row>, forest: seq<Tree>)
    requires SortedRows(rows) && InRowOrder(rows, forest)
    ensures SortedLevels(forest)
  {
    forall t | t in forest ensures SortedLevels(t.children) {
      RowOrderIsSorted(rows, t.children);
    }
    forall i, j | 0 <= i < j < |forest| ensures forest[i].row.sort <= forest[j].row.sort {
      assert forest[i] in forest && forest[j] in forest;
    }
  }

  // ---------------------------------------------------------------- relabelling

  ghost predicate KeepsLinks(f: Row -> Row) {
    forall row :: f(row).id == row.id && f(row).parentId == row.parentId
  }

  ghost function MapRows(f: Row -> Row, rows: seq<Row>): (out: seq<Row>)
    ensures |out| == |rows| && forall i :: 0 <= i < |rows| ==> out[i] == f(rows[i])
  {
    seq(|rows|, i requires 0 <= i < |rows| => f(rows[i]))
  }

  ghost function MapForest(f: Row -> Row, forest: seq<Tree>): (out: seq<Tree>)
    ensures |out| == |forest|
  {
    if forest == [] then []
    else
      var last := forest[|forest| - 1];
      MapForest(f, forest[..|forest| - 1]) + [Tree(f(last.row), MapForest(f, last.children))]
  }

  lemma MapForestSnoc(f: Row -> Row, forest: seq<Tree>, last: Tree)
    ensures MapForest(f, forest + [last])
         == MapForest(f, forest) + [Tree(f(last.row), MapForest(f, last.children))]
  {
    assert (forest + [last])[..|forest|] == forest;
  }

  lemma MapKeepsIds(f: Row -> Row, rows: seq<Row>)
    requires UniqueIds(rows) && KeepsLinks(f)
    ensures UniqueIds(MapRows(f, rows))
    ensures forall id :: HasId(MapRows(f, rows), id) <==> HasId(rows, id)
    ensures forall id :: HasId(rows, id) ==> ParentOf(MapRows(f, rows), id) == ParentOf(rows, id)
  {
    var out := MapRows(f, rows);
    forall id ensures HasId(out, id) <==> HasId(rows, id) {
      if HasId(rows, id) { assert out[Find(rows, id)].id == id; }
      if HasId(out, id) { assert rows[Find(out, id)].id == id; }
    }
    forall id | HasId(rows, id) ensures ParentOf(out, id) == ParentOf(rows, id) {
      ParentOfRow(out, Find(rows, id));
    }
  }

  lemma {:induction false} MapKeepsClimbs(f: Row -> Row, rows: seq<Row>, id: int, target: Option<int>, k: nat)
    requires UniqueIds(rows) && KeepsLinks(f)
    ensures Climbs(MapRows(f, rows), id, target, k) <==> Climbs(rows, id, target, k)
    decreases k
  {
    MapKeepsIds(f, rows);
    if k > 1 && HasId(rows, id) && ParentOf(rows, id).Some? {
      MapKeepsClimbs(f, rows, ParentOf(rows, id).value, target, k - 1);
    }
  }

  lemma MapKeepsCycles(f: Row -> Row, rows: seq<Row>, start: Option<int>)
    requires UniqueIds(rows) && KeepsLinks(f)
    ensures StartsOnCycle(MapRows(f, rows), start) <==> StartsOnCycle(rows, start)
  {
    forall id, k: nat ensures Climbs(MapRows(f, rows), id, start, k) <==> Climbs(rows, id, start, k) {
      MapKeepsClimbs(f, rows, id, start, k);
    }
    if start.Some? {
      var id := start.value;
      if OnCycle(rows, id) {
        var k: nat :| Climbs(rows, id, start, k);
        assert Climbs(MapRows(f, rows), id, start, k);
      }
      if OnCycle(MapRows(f, rows), id) {
        var k: nat :| Climbs(MapRows(f, rows), id, start, k);
        assert Climbs(rows, id, start, k);
      }
    }
  }

  lemma {:induction false} ForestOfMapped(f: Row -> Row, rows: seq<Row>, out: seq<Row>, parent: Option<int>, n: nat)
    requires UniqueIds(rows) && n <= |rows| && KeepsLinks(f) && !StartsOnCycle(rows, parent)
    requires out == MapRows(f, rows) && UniqueIds(out)
    ensures !StartsOnCycle(out, parent)
    ensures Forest(out, parent, n) == MapForest(f, Forest(rows, parent, n))
    decreases Room(rows, parent), n
  {
    MapKeepsCycles(f, rows, parent);
    if n > 0 {
      ForestOfMapped(f, rows, out, parent, n - 1);
      var row := rows[n - 1];
      assert out[n - 1] == f(row) && f(row).id == row.id && f(row).parentId == row.parentId;
      if row.parentId == parent {
        AboveGrows(rows, n - 1);
        ForestOfMapped(f, rows, out, Some(row.id), |rows|);
        MapForestSnoc(f, Forest(rows, parent, n - 1), Tree(row, Forest(rows, Some(row.id), |rows|)));
      }
    }
  }

  /** Rewriting the other columns of every row rewrites the forest tree by tree: same shape. */
  lemma {:induction false} TraversalOfMapped(f: Row -> Row, rows: seq<Row>, n: nat)
    requires UniqueIds(rows) && n <= |rows| && KeepsLinks(f)
    ensures UniqueIds(MapRows(f, rows))
    ensures TraversalForest(MapRows(f, rows), n) == MapForest(f, TraversalForest(rows, n))
  {
    MapKeepsIds(f, rows);
    if n > 0 {
      TraversalOfMapped(f, rows, n - 1);
      RootStep(f, rows, n);
    }
  }

  lemma RootStep(f: Row -> Row, rows: seq<Row>, n: nat)
    requires UniqueIds(rows) && 0 < n <= |rows| && KeepsLinks(f) && UniqueIds(MapRows(f, rows))
    requires TraversalForest(MapRows(f, rows), n - 1) == MapForest(f, TraversalForest(rows, n - 1))
    ensures TraversalForest(MapRows(f, rows), n) == MapForest(f, TraversalForest(rows, n))
  {
    var row, out := rows[n - 1], MapRows(f, rows);
    MapKeepsIds(f, rows);
    assert out[n - 1] == f(row) && (IsRoot(out, f(row)) <==> IsRoot(rows, row));
    if IsRoot(rows, row) {
      RootOffCycle(rows, n - 1);
      var forest, tree := TraversalForest(rows, n - 1), Tree(row, Forest(rows, Some(row.id), |rows|));
      ForestOfMapped(f, rows, out, Some(row.id), |rows|);
      MapForestSnoc(f, forest, tree);
      assert TraversalForest(rows, n) == forest + [tree];
      assert TraversalForest(out, n)
          == TraversalForest(out, n - 1) + [Tree(out[n - 1], Forest(out, Some(out[n - 1].id), |out|))];
    }
  }
}
