/**
 The two tree builders over mutable nodes: a one-pass builder that links each node into its parent,
 and a recursive one that scans the whole list at every level. Both are proved to leave in the heap
 the forest that MenuForest gives for the rows.
 */
module BuildTree {
  import opened Prelude
  import opened MenuRows
  import opened MenuForest
  import opened RowSort

  /** A serialised row. The key "children" is absent while children is None. */
  class Node {
    const row: Row
    var children: Option<seq<Node>>

    constructor (row: Row)
      ensures this.row == row && children == None
    {
      this.row := row;
      this.children := None;
    }
  }

  /** The rows the nodes carry, position by position. */
  ghost predicate Carries(nodes: seq<Node>, rows: seq<Row>) {
    |nodes| == |rows| && forall i :: 0 <= i < |nodes| ==> nodes[i].row == rows[i]
  }

  ghost function NodeSet(nodes: seq<Node>): set<Node> {
    set node | node in nodes
  }

  /** The nodes among the first n whose parent is the given one, in list order. */
  ghost function ChildNodes(nodes: seq<Node>, parent: Option<int>, n: nat): seq<Node>
    requires n <= |nodes|
  {
    if n == 0 then []
    else if nodes[n - 1].row.parentId == parent then ChildNodes(nodes, parent, n - 1) + [nodes[n - 1]]
    else ChildNodes(nodes, parent, n - 1)
  }

  ghost function RootNodes(nodes: seq<Node>, rows: seq<Row>, n: nat): seq<Node>
    requires n <= |nodes|
  {
    if n == 0 then []
    else if IsRoot(rows, nodes[n - 1].row) then RootNodes(nodes, rows, n - 1) + [nodes[n - 1]]
    else RootNodes(nodes, rows, n - 1)
  }

  /** The "children" entry a node has once its child nodes among the first n are linked. */
  ghost function Entry(nodes: seq<Node>, id: int, n: nat): Option<seq<Node>>
    requires n <= |nodes|
  {
    var kids := ChildNodes(nodes, Some(id), n);
    if kids == [] then None else Some(kids)
  }

  lemma SameIdSameNode(nodes: seq<Node>, rows: seq<Row>, i: nat, j: nat)
    requires Carries(nodes, rows) && UniqueIds(rows) && i < |nodes| && j < |nodes|
    ensures nodes[i].row.id == nodes[j].row.id ==> i == j
    ensures nodes[i] == nodes[j] ==> i == j
  {
  }

  lemma {:induction false} ChildNodesCount(nodes: seq<Node>, rows: seq<Row>, parent: Option<int>, n: nat, i: nat)
    requires Carries(nodes, rows) && UniqueIds(rows) && n <= |nodes| && i < |nodes|
    ensures Times(ChildNodes(nodes, parent, n), nodes[i])
         == if i < n && nodes[i].row.parentId == parent then 1 else 0
  {
    if n > 0 {
      ChildNodesCount(nodes, rows, parent, n - 1, i);
      SameIdSameNode(nodes, rows, i, n - 1);
    }
  }

  lemma {:induction false} RootNodesCount(nodes: seq<Node>, rows: seq<Row>, n: nat, i: nat)
    requires Carries(nodes, rows) && UniqueIds(rows) && n <= |nodes| && i < |nodes|
    ensures Times(RootNodes(nodes, rows, n), nodes[i]) == if i < n && IsRoot(rows, nodes[i].row) then 1 else 0
  {
    if n > 0 {
      RootNodesCount(nodes, rows, n - 1, i);
      SameIdSameNode(nodes, rows, i, n - 1);
    }
  }

  // ---------------------------------------------------------------- what the heap holds

  ghost function KidsOf(node: Node): seq<Node>
    reads node
  {
    if node.children.None? then [] else node.children.value
  }

  ghost function Times(list: seq<Node>, node: Node): nat {
    multiset(list)[node]
  }

  /** Following the children entries from a list of nodes spells out exactly this forest. */
  ghost predicate Represents(heap: set<Node>, list: seq<Node>, forest: seq<Tree>)
    reads heap
    decreases forest
  {
    && |list| == |forest|
    && forall i :: 0 <= i < |forest| ==>
         && list[i] in heap
         && list[i].row == forest[i].row
         && list[i].children != Some([])
         && Represents(heap, KidsOf(list[i]), forest[i].children)
  }

  /** A heap spells out at most one forest from a list. */
  lemma {:induction false} RepresentsOne(heap: set<Node>, list: seq<Node>, a: seq<Tree>, b: seq<Tree>)
    requires Represents(heap, list, a) && Represents(heap, list, b)
    ensures a == b
    decreases a
  {
    forall i | 0 <= i < |a| ensures a[i] == b[i] {
      RepresentsOne(heap, KidsOf(list[i]), a[i].children, b[i].children);
    }
  }

  // ---------------------------------------------------------------- children entries, as values

  type Entries = seq<Option<seq<Node>>>

  /** The children entries of all nodes, position by position. */
  ghost function EntriesOf(nodes: seq<Node>): (entries: Entries)
    reads nodes
    ensures |entries| == |nodes| && forall k :: 0 <= k < |nodes| ==> entries[k] == nodes[k].children
  {
    seq(|nodes|, k requires 0 <= k < |nodes| reads nodes => nodes[k].children)
  }

  /** Every node lists exactly its child nodes among the first n. */
  ghost predicate Linked(nodes: seq<Node>, entries: Entries, n: nat)
    requires n <= |nodes|
  {
    && |entries| == |nodes|
    && forall k {:trigger entries[k]} :: 0 <= k < |nodes| ==> entries[k] == Entry(nodes, nodes[k].row.id, n)
  }

  /** Every node below the parent has its complete entry. */
  ghost predicate LinkedBelow(nodes: seq<Node>, rows: seq<Row>, parent: Option<int>, entries: Entries)
    requires |nodes| == |rows| == |entries|
  {
    forall k :: 0 <= k < |nodes| && Below(rows, rows[k].id, parent) ==> entries[k] == Entry(nodes, rows[k].id, |nodes|)
  }

  lemma LinkedBelowChild(nodes: seq<Node>, rows: seq<Row>, parent: Option<int>, i: nat, child: Option<int>,
                         entries: Entries)
    requires |nodes| == |rows| == |entries| && UniqueIds(rows) && i < |nodes|
    requires rows[i].parentId == parent && child == Some(rows[i].id)
    requires !StartsOnCycle(rows, parent) && LinkedBelow(nodes, rows, parent, entries)
    ensures !StartsOnCycle(rows, child) && Room(rows, child) < Room(rows, parent)
    ensures LinkedBelow(nodes, rows, child, entries)
    ensures entries[i] == Entry(nodes, rows[i].id, |nodes|)
  {
    AboveGrows(rows, i);
    ChildIsBelow(rows, i);
    forall k | 0 <= k < |nodes| && Below(rows, rows[k].id, child)
      ensures entries[k] == Entry(nodes, rows[k].id, |nodes|)
    {
      BelowTransitive(rows, rows[k].id, rows[i].id, parent);
    }
  }

  /** Position t of a forest stands for row j: the node there is node j, its tree is row j's tree. */
  ghost predicate TreeOfRow(nodes: seq<Node>, rows: seq<Row>, node: Node, tree: Tree, j: nat)
    requires UniqueIds(rows)
  {
    && j < |rows| == |nodes| && node == nodes[j] && tree.row == rows[j]
    && !StartsOnCycle(rows, Some(rows[j].id))
    && tree.children == Forest(rows, Some(rows[j].id), |rows|)
  }

  /** The forest of the first n rows is that of one row less, and the tree of the last one if it is a child. */
  lemma ForestSnoc(rows: seq<Row>, parent: Option<int>, n: nat)
    requires UniqueIds(rows) && 0 < n <= |rows| && !StartsOnCycle(rows, parent)
    ensures rows[n - 1].parentId != parent ==> Forest(rows, parent, n) == Forest(rows, parent, n - 1)
    ensures rows[n - 1].parentId == parent ==>
              && !StartsOnCycle(rows, Some(rows[n - 1].id))
              && Forest(rows, parent, n)
                 == Forest(rows, parent, n - 1) + [Tree(rows[n - 1], Forest(rows, Some(rows[n - 1].id), |rows|))]
  {
    if rows[n - 1].parentId == parent {
      AboveGrows(rows, n - 1);
    }
  }

  lemma {:induction false} ChildTreeAt(nodes: seq<Node>, rows: seq<Row>, parent: Option<int>, n: nat, t: nat)
    returns (j: nat)
    requires Carries(nodes, rows) && UniqueIds(rows) && n <= |nodes| && !StartsOnCycle(rows, parent)
    ensures |ChildNodes(nodes, parent, n)| == |Forest(rows, parent, n)|
    ensures t < |Forest(rows, parent, n)| ==>
              && TreeOfRow(nodes, rows, ChildNodes(nodes, parent, n)[t], Forest(rows, parent, n)[t], j)
              && rows[j].parentId == parent
  {
    j := 0;
    if n > 0 {
      j := ChildTreeAt(nodes, rows, parent, n - 1, t);
      ForestSnoc(rows, parent, n);
      if rows[n - 1].parentId == parent && t >= |Forest(rows, parent, n - 1)| {
        j := n - 1;
      }
    }
  }

  lemma {:induction false} RootTreeAt(nodes: seq<Node>, rows: seq<Row>, n: nat, t: nat) returns (j: nat)
    requires Carries(nodes, rows) && UniqueIds(rows) && n <= |nodes|
    ensures |RootNodes(nodes, rows, n)| == |TraversalForest(rows, n)|
    ensures t < |TraversalForest(rows, n)| ==>
              TreeOfRow(nodes, rows, RootNodes(nodes, rows, n)[t], TraversalForest(rows, n)[t], j)
  {
    if n > 0 {
      j := RootTreeAt(nodes, rows, n - 1, t);
      if IsRoot(rows, rows[n - 1]) && t >= |TraversalForest(rows, n - 1)| {
        RootOffCycle(rows, n - 1);
        j := n - 1;
      }
    } else {
      j := 0;
    }
  }

  /** Once every node below a parent has its entry, the parent's child nodes spell out its forest. */
  lemma {:induction false} LinkedForest(nodes: seq<Node>, rows: seq<Row>, parent: Option<int>, entries: Entries)
    requires Carries(nodes, rows) && UniqueIds(rows) && entries == EntriesOf(nodes)
    requires !StartsOnCycle(rows, parent) && LinkedBelow(nodes, rows, parent, entries)
    ensures Represents(NodeSet(nodes), ChildNodes(nodes, parent, |nodes|), Forest(rows, parent, |rows|))
    decreases Room(rows, parent)
  {
    var list, forest := ChildNodes(nodes, parent, |nodes|), Forest(rows, parent, |rows|);
    var _ := ChildTreeAt(nodes, rows, parent, |nodes|, 0);
    forall t | 0 <= t < |forest|
      ensures list[t] in NodeSet(nodes) && list[t].row == forest[t].row && list[t].children != Some([])
      ensures Represents(NodeSet(nodes), KidsOf(list[t]), forest[t].children)
    {
      var j := ChildTreeAt(nodes, rows, parent, |nodes|, t);
      var child := Some(rows[j].id);
      LinkedBelowChild(nodes, rows, parent, j, child, entries);
      LinkedForest(nodes, rows, child, entries);
      EntryIsKids(nodes, rows[j].id, nodes[j]);
    }
  }

  lemma EntryIsKids(nodes: seq<Node>, id: int, node: Node)
    requires node.children == Entry(nodes, id, |nodes|)
    ensures node.children != Some([]) && KidsOf(node) == ChildNodes(nodes, Some(id), |nodes|)
  {
  }

  lemma LinkedTraversal(nodes: seq<Node>, rows: seq<Row>, entries: Entries)
    requires Carries(nodes, rows) && UniqueIds(rows) && entries == EntriesOf(nodes)
    requires Linked(nodes, entries, |nodes|)
    ensures Represents(NodeSet(nodes), RootNodes(nodes, rows, |nodes|), TraversalForest(rows, |rows|))
  {
    var list, forest := RootNodes(nodes, rows, |nodes|), TraversalForest(rows, |rows|);
    var _ := RootTreeAt(nodes, rows, |nodes|, 0);
    forall t | 0 <= t < |forest|
      ensures list[t] in NodeSet(nodes) && list[t].row == forest[t].row && list[t].children != Some([])
      ensures Represents(NodeSet(nodes), KidsOf(list[t]), forest[t].children)
    {
      var j := RootTreeAt(nodes, rows, |nodes|, t);
      LinkedForest(nodes, rows, Some(rows[j].id), entries);
      EntryIsKids(nodes, rows[j].id, nodes[j]);
    }
  }

  // ---------------------------------------------------------------- the one-pass builder

  lemma NotYetPlaced(nodes: seq<Node>, rows: seq<Row>, i: nat)
    requires Carries(nodes, rows) && UniqueIds(rows) && i < |nodes|
    ensures nodes[i] !in RootNodes(nodes, rows, i) && nodes[i] !in ChildNodes(nodes, rows[i].parentId, i)
  {
    RootNodesCount(nodes, rows, i, i);
    ChildNodesCount(nodes, rows, rows[i].parentId, i, i);
  }

  lemma NothingToLink(nodes: seq<Node>, rows: seq<Row>, i: nat, entries: Entries)
    requires Carries(nodes, rows) && i < |nodes| && Linked(nodes, entries, i)
    requires rows[i].parentId.Some? ==> !HasId(rows, rows[i].parentId.value)
    ensures Linked(nodes, entries, i + 1)
  {
    forall k | 0 <= k < |nodes| ensures entries[k] == Entry(nodes, nodes[k].row.id, i + 1) {
      assert rows[k].id == nodes[k].row.id;
    }
  }

  lemma OneLinked(nodes: seq<Node>, rows: seq<Row>, i: nat, p: nat, entries: Entries)
    requires Carries(nodes, rows) && UniqueIds(rows) && i < |nodes| && p < |nodes|
    requires rows[i].parentId == Some(rows[p].id) && Linked(nodes, entries, i)
    ensures Linked(nodes, entries[p := Some(ListOf(entries[p]) + [nodes[i]])], i + 1)
  {
    var after := entries[p := Some(ListOf(entries[p]) + [nodes[i]])];
    forall k | 0 <= k < |nodes| ensures after[k] == Entry(nodes, nodes[k].row.id, i + 1) {
      SameIdSameNode(nodes, rows, k, p);
    }
  }

  ghost function ListOf(entry: Option<seq<Node>>): seq<Node> {
    if entry.None? then [] else entry.value
  }

  /** Every node is found under its id, and nothing else is. */
  ghost predicate Indexes(dict: map<int, Node>, nodes: seq<Node>, rows: seq<Row>)
    requires |nodes| == |rows|
  {
    && (forall k {:trigger nodes[k]} :: 0 <= k < |nodes| ==> rows[k].id in dict && dict[rows[k].id] == nodes[k])
    && (forall id {:trigger HasId(rows, id)} :: id in dict ==> HasId(rows, id))
  }

  method NodeDict(nodes: seq<Node>, ghost rows: seq<Row>) returns (dict: map<int, Node>)
    requires Carries(nodes, rows) && UniqueIds(rows)
    ensures Indexes(dict, nodes, rows)
  {
    dict := map i | 0 <= i < |nodes| :: nodes[i].row.id := nodes[i];
  }

  /** Give one node, the one at position p, another children entry. */
  method SetEntry(nodes: seq<Node>, ghost rows: seq<Row>, ghost p: nat, node: Node, entry: Option<seq<Node>>)
    requires Carries(nodes, rows) && UniqueIds(rows) && p < |nodes| && nodes[p] == node
    modifies node
    ensures EntriesOf(nodes) == old(EntriesOf(nodes))[p := entry]
  {
    node.children := entry;
    forall k | 0 <= k < |nodes| ensures nodes[k].children == old(EntriesOf(nodes))[p := entry][k] {
      SameIdSameNode(nodes, rows, k, p);
    }
  }

  /** Create the children list if it is missing, then append the node unless it is in there. */
  method AppendChild(nodes: seq<Node>, ghost rows: seq<Row>, ghost p: nat, parentNode: Node, node: Node)
    requires Carries(nodes, rows) && UniqueIds(rows) && p < |nodes| && nodes[p] == parentNode
    requires node !in KidsOf(parentNode)
    modifies parentNode
    ensures EntriesOf(nodes) == old(EntriesOf(nodes))[p := Some(ListOf(old(EntriesOf(nodes))[p]) + [node])]
  {
    if parentNode.children.None? {
      SetEntry(nodes, rows, p, parentNode, Some([]));
    }
    if node !in parentNode.children.value {
      SetEntry(nodes, rows, p, parentNode, Some(parentNode.children.value + [node]));
    }
  }

  /** The first n nodes are where they belong: among the roots, or in the list of the parent's node. */
  ghost predicate PlacedUpTo(nodes: seq<Node>, rows: seq<Row>, n: nat, tree: seq<Node>)
    requires n <= |nodes|
    reads nodes
  {
    tree == RootNodes(nodes, rows, n) && Linked(nodes, EntriesOf(nodes), n)
  }

  lemma NothingLinked(nodes: seq<Node>)
    requires forall k :: 0 <= k < |nodes| ==> nodes[k].children == None
    ensures Linked(nodes, EntriesOf(nodes), 0)
  {
    var entries := EntriesOf(nodes);
    forall k | 0 <= k < |nodes| ensures entries[k] == Entry(nodes, nodes[k].row.id, 0) {
      assert nodes[k].children == None;
    }
  }

  /** One turn of the loop over the nodes: the node becomes a root, or a child of its parent's node. */
  method PlaceNode(nodes: seq<Node>, ghost rows: seq<Row>, ghost i: nat, node: Node, nodeDict: map<int, Node>,
                   tree: seq<Node>)
    returns (longer: seq<Node>)
    requires Carries(nodes, rows) && UniqueIds(rows) && i < |nodes| && nodes[i] == node
    requires Indexes(nodeDict, nodes, rows)
    requires PlacedUpTo(nodes, rows, i, tree)
    modifies nodes
    ensures PlacedUpTo(nodes, rows, i + 1, longer)
  {
    var parentId := node.row.parentId;
    ghost var entries := EntriesOf(nodes);
    assert parentId == rows[i].parentId;
    NotYetPlaced(nodes, rows, i);
    longer := tree;
    if parentId.None? {
      assert IsRoot(rows, node.row);
      longer := longer + [node];
      NothingToLink(nodes, rows, i, entries);
    } else if parentId.value in nodeDict {
      var parentNode := nodeDict[parentId.value];
      ghost var p := Find(rows, parentId.value);
      assert nodes[p] == parentNode;
      assert !IsRoot(rows, node.row);
      AppendChild(nodes, rows, p, parentNode, node);
      OneLinked(nodes, rows, i, p, entries);
    } else {
      assert IsRoot(rows, node.row);
      if node !in longer {
        longer := longer + [node];
      }
      NothingToLink(nodes, rows, i, entries);
    }
  }

  /**
   One pass over the list. Afterwards every node, on a cycle or not, lists its own child nodes in
   list order (and has no entry when it has none), and the result spells out TraversalForest.
   */
  method TraversalToTree(nodes: seq<Node>, ghost rows: seq<Row>) returns (tree: seq<Node>)
    requires Carries(nodes, rows) && UniqueIds(rows)
    requires forall k :: 0 <= k < |nodes| ==> nodes[k].children == None
    modifies nodes
    ensures tree == RootNodes(nodes, rows, |nodes|)
    ensures Linked(nodes, EntriesOf(nodes), |nodes|)
    ensures Represents(NodeSet(nodes), tree, TraversalForest(rows, |rows|))
  {
    tree := [];
    var nodeDict := NodeDict(nodes, rows);
    NothingLinked(nodes);
    for i := 0 to |nodes|
      invariant PlacedUpTo(nodes, rows, i, tree)
    {
      tree := PlaceNode(nodes, rows, i, nodes[i], nodeDict, tree);
    }
    LinkedTraversal(nodes, rows, EntriesOf(nodes));
  }

  // ---------------------------------------------------------------- the recursive builder

  /** The entries once the first n children of the parent are processed, starting from was. */
  ghost predicate Filled(nodes: seq<Node>, rows: seq<Row>, parent: Option<int>, n: nat, was: Entries, entries: Entries)
    requires n <= |nodes| == |rows| == |was|
  {
    && |entries| == |nodes|
    && forall k {:trigger entries[k]} :: 0 <= k < |nodes| ==>
         entries[k] == if UnderFirst(rows, parent, n, rows[k].id) then Entry(nodes, rows[k].id, |nodes|) else was[k]
  }

  /** Complete entries below the start, and elsewhere what was there before. */
  ghost predicate FilledBelow(nodes: seq<Node>, rows: seq<Row>, parent: Option<int>, was: Entries, entries: Entries)
    requires |nodes| == |rows| == |was|
  {
    && |entries| == |nodes|
    && forall k {:trigger entries[k]} :: 0 <= k < |nodes| ==>
         entries[k] == if Below(rows, rows[k].id, parent) then Entry(nodes, rows[k].id, |nodes|) else was[k]
  }

  lemma FilledIsFilledBelow(nodes: seq<Node>, rows: seq<Row>, parent: Option<int>, was: Entries, entries: Entries)
    requires UniqueIds(rows) && |was| == |nodes| == |rows| && Filled(nodes, rows, parent, |nodes|, was, entries)
    ensures FilledBelow(nodes, rows, parent, was, entries) && LinkedBelow(nodes, rows, parent, entries)
  {
    forall k | 0 <= k < |nodes|
      ensures entries[k] == if Below(rows, rows[k].id, parent) then Entry(nodes, rows[k].id, |nodes|) else was[k]
    {
      UnderAllIsBelow(rows, parent, rows[k].id);
    }
  }

  /** What the entries become when the child at position i gets its own, if it has children. */
  ghost function OwnEntry(nodes: seq<Node>, rows: seq<Row>, i: nat, below: Entries): Entries
    requires i < |nodes| == |rows| == |below|
  {
    var kids := ChildNodes(nodes, Some(rows[i].id), |nodes|);
    if kids == [] then below else below[i := Some(kids)]
  }

  lemma OwnEntryComplete(nodes: seq<Node>, rows: seq<Row>, i: nat, before: Entries, below: Entries)
    requires UniqueIds(rows) && i < |nodes| == |rows| == |before| && !StartsOnCycle(rows, Some(rows[i].id))
    requires before[i] == None || before[i] == Entry(nodes, rows[i].id, |nodes|)
    requires FilledBelow(nodes, rows, Some(rows[i].id), before, below)
    ensures OwnEntry(nodes, rows, i, below)[i] == Entry(nodes, rows[i].id, |nodes|)
  {
    NotBelowSelf(rows, rows[i].id);
    assert below[i] == before[i];
  }

  lemma FilledStepAt(nodes: seq<Node>, rows: seq<Row>, parent: Option<int>, i: nat,
                     was: Entries, before: Entries, below: Entries, k: nat)
    requires UniqueIds(rows) && |was| == |nodes| == |rows| && i < |nodes| && k < |nodes|
    requires rows[i].parentId == parent && !StartsOnCycle(rows, Some(rows[i].id))
    requires NoneOrComplete(nodes, rows, was) && Filled(nodes, rows, parent, i, was, before)
    requires FilledBelow(nodes, rows, Some(rows[i].id), before, below)
    ensures OwnEntry(nodes, rows, i, below)[k]
         == if UnderFirst(rows, parent, i + 1, rows[k].id) then Entry(nodes, rows[k].id, |nodes|) else was[k]
  {
    UnderFirstStep(rows, parent, i + 1, rows[k].id);
    if k == i {
      assert was[i] == None || was[i] == Entry(nodes, rows[i].id, |nodes|);
      OwnEntryComplete(nodes, rows, i, before, below);
    } else {
      assert rows[k].id != rows[i].id;
      assert OwnEntry(nodes, rows, i, below)[k] == below[k];
    }
  }

  /** One more child processed: everything below it filled, then its own entry set if it has children. */
  lemma FilledStep(nodes: seq<Node>, rows: seq<Row>, parent: Option<int>, i: nat,
                   was: Entries, before: Entries, below: Entries)
    requires UniqueIds(rows) && |was| == |nodes| == |rows| && i < |nodes|
    requires rows[i].parentId == parent && !StartsOnCycle(rows, Some(rows[i].id))
    requires NoneOrComplete(nodes, rows, was) && Filled(nodes, rows, parent, i, was, before)
    requires FilledBelow(nodes, rows, Some(rows[i].id), before, below)
    ensures Filled(nodes, rows, parent, i + 1, was, OwnEntry(nodes, rows, i, below))
  {
    forall k | 0 <= k < |nodes|
      ensures OwnEntry(nodes, rows, i, below)[k]
           == if UnderFirst(rows, parent, i + 1, rows[k].id) then Entry(nodes, rows[k].id, |nodes|) else was[k]
    {
      FilledStepAt(nodes, rows, parent, i, was, before, below, k);
    }
  }

  lemma FilledIsNoneOrComplete(nodes: seq<Node>, rows: seq<Row>, parent: Option<int>, n: nat, was: Entries,
                               entries: Entries)
    requires n <= |nodes| == |rows| && NoneOrComplete(nodes, rows, was) && Filled(nodes, rows, parent, n, was, entries)
    ensures NoneOrComplete(nodes, rows, entries)
  {
  }

  lemma FilledSkip(nodes: seq<Node>, rows: seq<Row>, parent: Option<int>, i: nat, was: Entries, entries: Entries)
    requires |was| == |nodes| == |rows| && i < |nodes| && rows[i].parentId != parent
    requires Filled(nodes, rows, parent, i, was, entries)
    ensures Filled(nodes, rows, parent, i + 1, was, entries)
  {
    forall k | 0 <= k < |nodes|
      ensures UnderFirst(rows, parent, i + 1, rows[k].id) <==> UnderFirst(rows, parent, i, rows[k].id)
    {
      UnderFirstStep(rows, parent, i + 1, rows[k].id);
    }
  }

  /** No entry is half made: absent, or complete. */
  ghost predicate NoneOrComplete(nodes: seq<Node>, rows: seq<Row>, entries: Entries)
    requires |nodes| == |rows|
  {
    |entries| == |nodes| && forall k {:trigger entries[k]} :: 0 <= k < |nodes| ==>
      entries[k] == None || entries[k] == Entry(nodes, rows[k].id, |nodes|)
  }

  /** A node gets a children entry only if there is something to put into it. */
  method KeepChildren(nodes: seq<Node>, ghost rows: seq<Row>, ghost p: nat, node: Node, childNodes: seq<Node>)
    requires Carries(nodes, rows) && UniqueIds(rows) && p < |nodes| && nodes[p] == node
    requires childNodes == ChildNodes(nodes, Some(rows[p].id), |nodes|)
    modifies node
    ensures EntriesOf(nodes) == OwnEntry(nodes, rows, p, old(EntriesOf(nodes)))
  {
    if childNodes != [] {
      SetEntry(nodes, rows, p, node, Some(childNodes));
    }
  }

  /** The children of one node: what is below it first, then its own entry. */
  method LinkChildren(nodes: seq<Node>, ghost rows: seq<Row>, ghost i: nat, node: Node, ghost parentId: Option<int>)
    requires Carries(nodes, rows) && UniqueIds(rows) && i < |nodes| && nodes[i] == node
    requires rows[i].parentId == parentId && !StartsOnCycle(rows, parentId)
    requires NoneOrComplete(nodes, rows, EntriesOf(nodes))
    modifies nodes
    ensures !StartsOnCycle(rows, Some(rows[i].id))
    ensures exists below ::
              && FilledBelow(nodes, rows, Some(rows[i].id), old(EntriesOf(nodes)), below)
              && EntriesOf(nodes) == OwnEntry(nodes, rows, i, below)
    decreases Room(rows, parentId), 0
  {
    AboveGrows(rows, i);
    var childNodes := RecursiveToTree(nodes, rows, Some(node.row.id));
    ghost var below := EntriesOf(nodes);
    KeepChildren(nodes, rows, i, node, childNodes);
  }

  /** One turn of the loop over the nodes. */
  method VisitNode(nodes: seq<Node>, ghost rows: seq<Row>, parentId: Option<int>, node: Node, tree: seq<Node>,
                   ghost i: nat, ghost was: Entries)
    returns (longer: seq<Node>)
    requires Carries(nodes, rows) && UniqueIds(rows) && !StartsOnCycle(rows, parentId)
    requires i < |nodes| && nodes[i] == node && tree == ChildNodes(nodes, parentId, i)
    requires NoneOrComplete(nodes, rows, was) && Filled(nodes, rows, parentId, i, was, EntriesOf(nodes))
    modifies nodes
    ensures longer == ChildNodes(nodes, parentId, i + 1)
    ensures Filled(nodes, rows, parentId, i + 1, was, EntriesOf(nodes))
    decreases Room(rows, parentId), 1
  {
    ghost var before := EntriesOf(nodes);
    if node.row.parentId == parentId {
      FilledIsNoneOrComplete(nodes, rows, parentId, i, was, before);
      LinkChildren(nodes, rows, i, node, parentId);
      ghost var below :| FilledBelow(nodes, rows, Some(rows[i].id), before, below)
                         && EntriesOf(nodes) == OwnEntry(nodes, rows, i, below);
      FilledStep(nodes, rows, parentId, i, was, before, below);
      longer := tree + [node];
    } else {
      FilledSkip(nodes, rows, parentId, i, was, before);
      longer := tree;
    }
  }

  /**
   The recursive builder. It links exactly the nodes below the parent it starts from and touches no
   other node. The start must not lie on a cycle: RecursionReturnsIff shows that the program returns
   exactly then.
   */
  method RecursiveToTree(nodes: seq<Node>, ghost rows: seq<Row>, parentId: Option<int>) returns (tree: seq<Node>)
    requires Carries(nodes, rows) && UniqueIds(rows) && !StartsOnCycle(rows, parentId)
    requires NoneOrComplete(nodes, rows, EntriesOf(nodes))
    modifies nodes
    ensures tree == ChildNodes(nodes, parentId, |nodes|)
    ensures FilledBelow(nodes, rows, parentId, old(EntriesOf(nodes)), EntriesOf(nodes))
    ensures Represents(NodeSet(nodes), tree, Forest(rows, parentId, |rows|))
    decreases Room(rows, parentId), 2
  {
    tree := [];
    ghost var was := EntriesOf(nodes);
    for i := 0 to |nodes|
      invariant tree == ChildNodes(nodes, parentId, i)
      invariant Filled(nodes, rows, parentId, i, was, EntriesOf(nodes))
    {
      tree := VisitNode(nodes, rows, parentId, nodes[i], tree, i, was);
    }
    FilledIsFilledBelow(nodes, rows, parentId, was, EntriesOf(nodes));
    LinkedForest(nodes, rows, parentId, EntriesOf(nodes));
  }

  /**
   After the one-pass builder a node occurs once in all: among the roots if it is a root, and
   otherwise in the children list of the one node that carries its parent id.
   */
  lemma {:induction false} PlacedOnceInHeap(nodes: seq<Node>, rows: seq<Row>, i: nat)
    requires Carries(nodes, rows) && UniqueIds(rows) && i < |nodes|
    requires Linked(nodes, EntriesOf(nodes), |nodes|)
    ensures Times(RootNodes(nodes, rows, |nodes|), nodes[i]) == if IsRoot(rows, rows[i]) then 1 else 0
    ensures forall k :: 0 <= k < |nodes| ==>
              Times(KidsOf(nodes[k]), nodes[i]) == if rows[i].parentId == Some(rows[k].id) then 1 else 0
  {
    RootNodesCount(nodes, rows, |nodes|, i);
    forall k | 0 <= k < |nodes|
      ensures Times(KidsOf(nodes[k]), nodes[i]) == if rows[i].parentId == Some(rows[k].id) then 1 else 0
    {
      ChildNodesCount(nodes, rows, Some(rows[k].id), |nodes|, i);
      assert EntriesOf(nodes)[k] == nodes[k].children;
      assert KidsOf(nodes[k]) == ChildNodes(nodes, Some(rows[k].id), |nodes|);
    }
  }

  // ---------------------------------------------------------------- from table rows

  method GetTreeNodes(rows: seq<Row>) returns (nodes: seq<Node>)
    ensures Carries(nodes, StableSort(rows))
    ensures forall i :: 0 <= i < |nodes| ==> fresh(nodes[i]) && nodes[i].children == None
  {
    var sorted := StableSort(rows);
    nodes := [];
    for i := 0 to |sorted|
      invariant |nodes| == i && forall j :: 0 <= j < i ==> nodes[j].row == sorted[j]
      invariant forall j :: 0 <= j < i ==> fresh(nodes[j]) && nodes[j].children == None
    {
      var node := new Node(sorted[i]);
      nodes := nodes + [node];
    }
  }

  datatype BuildType = Traversal | Recursive | Other(name: string)

  datatype BuildError = UnknownBuildType(name: string)

  /** The dispatcher: sorted nodes, then the builder asked for; any other name is an error. */
  method GetTreeData(rows: seq<Row>, buildType: BuildType, parentId: Option<int>)
    returns (tree: Result<seq<Node>, BuildError>, ghost heap: set<Node>)
    requires UniqueIds(rows)
    requires buildType == Recursive ==> !StartsOnCycle(StableSort(rows), parentId)
    ensures tree.Err? <==> buildType.Other?
    ensures UniqueIds(StableSort(rows))
    ensures buildType == Traversal ==>
              tree.Ok? && Represents(heap, tree.value, TraversalForest(StableSort(rows), |StableSort(rows)|))
    ensures buildType == Recursive ==>
              tree.Ok? && Represents(heap, tree.value, Forest(StableSort(rows), parentId, |StableSort(rows)|))
    ensures fresh(heap)
  {
    StableSortSorts(rows);
    var nodes := GetTreeNodes(rows);
    heap := NodeSet(nodes);
    match buildType {
      case Traversal =>
        var built := TraversalToTree(nodes, StableSort(rows));
        tree := Ok(built);
      case Recursive =>
        var built := RecursiveToTree(nodes, StableSort(rows), parentId);
        tree := Ok(built);
      case Other(name) =>
        tree := Err(UnknownBuildType(name));
    }
  }

  const REMOVED_KEYS: set<string> := {"title", "icon", "link", "cache", "display", "status"}

  function Column(row: Row, key: string): Value {
    if key in row.columns then row.columns[key] else Null
  }

  function Truthy(v: Value): bool {
    match v
    case Null => false
    case Int(i) => i != 0
    case Str(s) => s != ""
    case Bool(b) => b
    case Meta(fields) => fields != map[]
  }

  /** The menu columns moved into a "meta" entry, the rest kept. */
  function Vben5(row: Row): Row {
    var meta := map[
      "title" := Column(row, "title"),
      "icon" := Column(row, "icon"),
      "link" := Column(row, "link"),
      "keepAlive" := Column(row, "cache"),
      "hideInMenu" := Bool(!Truthy(Column(row, "display"))),
      "menuVisibleWithForbidden" := Bool(!Truthy(Column(row, "status")))];
    row.(columns := (map k | k in row.columns && k !in REMOVED_KEYS :: row.columns[k])["meta" := Meta(meta)])
  }

  /** An empty value of the source language. */
  predicate IsFalsy(v: Value) {
    v == Null || v == Int(0) || v == Str("") || v == Bool(false) || v == Meta(map[])
  }

  /**
   A relabelled row keeps its id, parent, sort key and other columns; the six columns of the menu are gone
   (but for "meta", which is the new entry), and the entry tells the six things from them.
   */
  lemma Vben5Row(row: Row)
    requires REMOVED_KEYS <= row.columns.Keys
    ensures var out := Vben5(row);
            && out.id == row.id && out.parentId == row.parentId && out.sort == row.sort
            && "meta" in out.columns && out.columns["meta"].Meta?
            && var fields := out.columns["meta"].fields;
               && fields.Keys == {"title", "icon", "link", "keepAlive", "hideInMenu", "menuVisibleWithForbidden"}
               && fields["title"] == row.columns["title"] && fields["icon"] == row.columns["icon"]
               && fields["link"] == row.columns["link"] && fields["keepAlive"] == row.columns["cache"]
               && fields["hideInMenu"] == Bool(IsFalsy(row.columns["display"]))
               && fields["menuVisibleWithForbidden"] == Bool(IsFalsy(row.columns["status"]))
  {
  }

  lemma Vben5Columns(row: Row, key: string)
    requires key != "meta"
    ensures key in {"title", "icon", "link", "cache", "display", "status"} ==> key !in Vben5(row).columns
    ensures key !in {"title", "icon", "link", "cache", "display", "status"} ==>
              (key in Vben5(row).columns <==> key in row.columns)
              && (key in row.columns ==> Vben5(row).columns[key] == row.columns[key])
  {
  }

  method Vben5Nodes(source: seq<Node>, ghost rows: seq<Row>) returns (nodes: seq<Node>)
    requires Carries(source, rows)
    ensures Carries(nodes, MapRows(Vben5, rows))
    ensures forall i :: 0 <= i < |nodes| ==> fresh(nodes[i]) && nodes[i].children == None
  {
    nodes := [];
    for i := 0 to |source|
      invariant |nodes| == i && forall j :: 0 <= j < i ==> nodes[j].row == Vben5(rows[j])
      invariant forall j :: 0 <= j < i ==> fresh(nodes[j]) && nodes[j].children == None
    {
      var node := new Node(Vben5(source[i].row));
      nodes := nodes + [node];
    }
  }

  /** The menu tree is the forest of the sorted rows, relabelled row by row and otherwise unchanged. */
  method GetVben5TreeData(rows: seq<Row>) returns (tree: seq<Node>, ghost heap: set<Node>)
    requires UniqueIds(rows)
    requires forall row :: row in rows ==> REMOVED_KEYS <= row.columns.Keys
    ensures UniqueIds(StableSort(rows)) && fresh(heap)
    ensures Represents(heap, tree, MapForest(Vben5, TraversalForest(StableSort(rows), |StableSort(rows)|)))
  {
    StableSortSorts(rows);
    TraversalOfMapped(Vben5, StableSort(rows), |StableSort(rows)|);
    var source := GetTreeNodes(rows);
    var nodes := Vben5Nodes(source, StableSort(rows));
    heap := NodeSet(nodes);
    tree := TraversalToTree(nodes, MapRows(Vben5, StableSort(rows)));
  }

  /**
   The menu tree keeps ids, parents and sort keys, and at every level it is in sort order with ties
   in row order, because the forest it relabels is.
   */
  lemma TreeDataInOrder(rows: seq<Row>)
    requires UniqueIds(rows)
    ensures UniqueIds(StableSort(rows))
    ensures SortedLevels(TraversalForest(StableSort(rows), |StableSort(rows)|))
    ensures InRowOrder(StableSort(rows), TraversalForest(StableSort(rows), |StableSort(rows)|))
    ensures forall key :: WithSort(StableSort(rows), key) == WithSort(rows, key)
  {
    StableSortSorts(rows);
    TraversalInRowOrder(StableSort(rows), |StableSort(rows)|);
    RowOrderIsSorted(StableSort(rows), TraversalForest(StableSort(rows), |StableSort(rows)|));
  }
}
