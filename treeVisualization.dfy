/** The decision-tree panel (src/components/TreeVisualization/TreeVisualization.tsx):
    traversals of a tree of outcome nodes filtered by the list of expanded node
    ids, the connection lines between visible nodes, the expansion controls,
    the leaf-based win rates and the drawing height. A missing `children` list
    behaves like an empty one in every helper, so children is always a list. */
module TreeVisualization {
  import opened MontyTypes

  type NodeId = string

  /** The strategy a leaf of the tree belongs to. */
  datatype TreeStrategy = StayBranch | SwitchBranch

  /** A node of the tree: optional outcome, strategy and coordinates. The
      source's `label` is `caption` here (`label` is a Dafny keyword). */
  datatype TreeNode = TreeNode(
    id: NodeId,
    caption: string,
    probability: string,
    children: seq<TreeNode>,
    isWin: Option<bool>,
    strategy: Option<TreeStrategy>,
    x: Option<real>,
    y: Option<real>)

  /** A point of the drawing and a line between two points. */
  datatype Point = Point(x: real, y: real)
  datatype Line = Line(from: Point, to: Point)

  /** A coordinate as drawn: an absent one reads as 0. */
  function Coord(c: Option<real>): real {
    if c.Some? then c.value else 0.0
  }

  /** Where a line leaves a parent (below its circle) and reaches a child (above it). */
  function BottomAnchor(n: TreeNode): Point {
    Point(Coord(n.x), Coord(n.y) + 20.0)
  }

  function TopAnchor(n: TreeNode): Point {
    Point(Coord(n.x), Coord(n.y) - 10.0)
  }

  // ----- Reference traversals -----

  /** Every node of the tree in preorder, root first. */
  function Nodes(n: TreeNode): (ns: seq<TreeNode>)
    ensures |ns| >= 1 && ns[0] == n
    decreases n
  {
    [n] + NodesOf(n.children)
  }

  function NodesOf(cs: seq<TreeNode>): seq<TreeNode>
    decreases cs
  {
    if cs == [] then [] else NodesOf(cs[..|cs| - 1]) + Nodes(cs[|cs| - 1])
  }

  /** The ids of a list of nodes, in order. */
  function IdsOf(ns: seq<TreeNode>): (ids: seq<NodeId>)
    ensures |ids| == |ns|
    ensures forall k :: 0 <= k < |ns| ==> ids[k] == ns[k].id
  {
    if ns == [] then [] else IdsOf(ns[..|ns| - 1]) + [ns[|ns| - 1].id]
  }

  // ----- The helpers as the panel computes them -----

  /** The visible nodes: the root, then, only below an expanded node, its
      children's visible nodes in order. */
  function AllNodes(n: TreeNode, expanded: seq<NodeId>): (ns: seq<TreeNode>)
    ensures |ns| >= 1 && ns[0] == n
    decreases n
  {
    [n] + if n.id in expanded then AllNodesOf(n.children, expanded) else []
  }

  function AllNodesOf(cs: seq<TreeNode>, expanded: seq<NodeId>): seq<TreeNode>
    decreases cs
  {
    if cs == [] then []
    else AllNodesOf(cs[..|cs| - 1], expanded) + AllNodes(cs[|cs| - 1], expanded)
  }

  /** The lines from an expanded node to each child, each followed by the lines
      below that child. */
  function ConnectionLines(n: TreeNode, expanded: seq<NodeId>): seq<Line>
    decreases n
  {
    if n.id in expanded then LinesOf(n, n.children, expanded) else []
  }

  function LinesOf(parent: TreeNode, cs: seq<TreeNode>, expanded: seq<NodeId>): seq<Line>
    decreases cs
  {
    if cs == [] then []
    else
      var child := cs[|cs| - 1];
      LinesOf(parent, cs[..|cs| - 1], expanded)
      + [Line(BottomAnchor(parent), TopAnchor(child))]
      + ConnectionLines(child, expanded)
  }

  /** Every id of the tree, whatever is expanded. */
  function AllNodeIds(n: TreeNode): seq<NodeId>
    decreases n
  {
    [n.id] + AllNodeIdsOf(n.children)
  }

  function AllNodeIdsOf(cs: seq<TreeNode>): seq<NodeId>
    decreases cs
  {
    if cs == [] then [] else AllNodeIdsOf(cs[..|cs| - 1]) + AllNodeIds(cs[|cs| - 1])
  }

  /** The leaves: a node without children is its own leaf; otherwise the
      leaves of its children, in order. */
  function LeafNodes(n: TreeNode): seq<TreeNode>
    decreases n
  {
    if n.children == [] then [n] else LeafNodesOf(n.children)
  }

  function LeafNodesOf(cs: seq<TreeNode>): seq<TreeNode>
    decreases cs
  {
    if cs == [] then [] else LeafNodesOf(cs[..|cs| - 1]) + LeafNodes(cs[|cs| - 1])
  }

  // ----- Lines and visible nodes -----

  /** One line per visible node below the root. */
  lemma {:induction false} LinesMatchVisibleNodes(n: TreeNode, expanded: seq<NodeId>)
    ensures |ConnectionLines(n, expanded)| == |AllNodes(n, expanded)| - 1
    decreases n
  {
    if n.id in expanded {
      LinesMatchVisibleNodesOf(n, n.children, expanded);
    }
  }

  lemma {:induction false} LinesMatchVisibleNodesOf(parent: TreeNode, cs: seq<TreeNode>, expanded: seq<NodeId>)
    ensures |LinesOf(parent, cs, expanded)| == |AllNodesOf(cs, expanded)|
    decreases cs
  {
    if cs != [] {
      LinesMatchVisibleNodesOf(parent, cs[..|cs| - 1], expanded);
      LinesMatchVisibleNodes(cs[|cs| - 1], expanded);
    }
  }

  /** The k-th line ends above the (k+1)-th visible node: lines and nodes are
      drawn in the same preorder. */
  lemma {:induction false} LinesReachVisibleNodes(n: TreeNode, expanded: seq<NodeId>)
    ensures |ConnectionLines(n, expanded)| == |AllNodes(n, expanded)| - 1
    ensures forall k :: 0 <= k < |ConnectionLines(n, expanded)| ==>
              ConnectionLines(n, expanded)[k].to == TopAnchor(AllNodes(n, expanded)[k + 1])
    decreases n
  {
    LinesMatchVisibleNodes(n, expanded);
    if n.id in expanded {
      LinesReachVisibleNodesOf(n, n.children, expanded);
      var lines, below := ConnectionLines(n, expanded), AllNodesOf(n.children, expanded);
      assert lines == LinesOf(n, n.children, expanded);
      assert AllNodes(n, expanded) == [n] + below;
      forall k | 0 <= k < |lines|
        ensures lines[k].to == TopAnchor(AllNodes(n, expanded)[k + 1])
      {
        assert AllNodes(n, expanded)[k + 1] == below[k];
      }
    }
  }

  lemma {:induction false} LinesReachVisibleNodesOf(parent: TreeNode, cs: seq<TreeNode>, expanded: seq<NodeId>)
    ensures |LinesOf(parent, cs, expanded)| == |AllNodesOf(cs, expanded)|
    ensures forall k :: 0 <= k < |LinesOf(parent, cs, expanded)| ==>
              LinesOf(parent, cs, expanded)[k].to == TopAnchor(AllNodesOf(cs, expanded)[k])
    decreases cs
  {
    LinesMatchVisibleNodesOf(parent, cs, expanded);
    if cs != [] {
      var pre, child := cs[..|cs| - 1], cs[|cs| - 1];
      LinesReachVisibleNodesOf(parent, pre, expanded);
      LinesReachVisibleNodes(child, expanded);
      var preLines, childLines := LinesOf(parent, pre, expanded), ConnectionLines(child, expanded);
      var preNodes, childNodes := AllNodesOf(pre, expanded), AllNodes(child, expanded);
      var lines := LinesOf(parent, cs, expanded);
      var nodes := AllNodesOf(cs, expanded);
      assert lines == preLines + [Line(BottomAnchor(parent), TopAnchor(child))] + childLines;
      assert nodes == preNodes + childNodes;
      forall k | 0 <= k < |lines|
        ensures lines[k].to == TopAnchor(nodes[k])
      {
        if k < |preLines| {
          assert lines[k] == preLines[k] && nodes[k] == preNodes[k];
        } else if k == |preLines| {
          assert nodes[k] == childNodes[0];
        } else {
          var j := k - |preLines| - 1;
          assert lines[k] == childLines[j] && nodes[k] == childNodes[j + 1];
        }
      }
    }
  }

  /** Every visible node is a node of the tree, and there are no more visible
      nodes than nodes in the full preorder. */
  lemma {:induction false} VisibleNodesAreNodes(n: TreeNode, expanded: seq<NodeId>)
    ensures forall m :: m in AllNodes(n, expanded) ==> m in Nodes(n)
    ensures |AllNodes(n, expanded)| <= |Nodes(n)|
    decreases n
  {
    VisibleNodesAreNodesOf(n.children, expanded);
  }

  lemma {:induction false} VisibleNodesAreNodesOf(cs: seq<TreeNode>, expanded: seq<NodeId>)
    ensures forall m :: m in AllNodesOf(cs, expanded) ==> m in NodesOf(cs)
    ensures |AllNodesOf(cs, expanded)| <= |NodesOf(cs)|
    decreases cs
  {
    if cs != [] {
      VisibleNodesAreNodesOf(cs[..|cs| - 1], expanded);
      VisibleNodesAreNodes(cs[|cs| - 1], expanded);
    }
  }

  // ----- Ids and expanding everything -----

  lemma IdsOfAppend(a: seq<TreeNode>, b: seq<TreeNode>)
    ensures IdsOf(a + b) == IdsOf(a) + IdsOf(b)
  {
  }

  /** The id list lists the ids of the full preorder, so its length is the
      number of nodes of the tree. */
  lemma {:induction false} AllNodeIdsArePreorderIds(n: TreeNode)
    ensures AllNodeIds(n) == IdsOf(Nodes(n))
    ensures |AllNodeIds(n)| == |Nodes(n)|
    decreases n
  {
    AllNodeIdsArePreorderIdsOf(n.children);
    IdsOfAppend([n], NodesOf(n.children));
  }

  lemma {:induction false} AllNodeIdsArePreorderIdsOf(cs: seq<TreeNode>)
    ensures AllNodeIdsOf(cs) == IdsOf(NodesOf(cs))
    decreases cs
  {
    if cs != [] {
      AllNodeIdsArePreorderIdsOf(cs[..|cs| - 1]);
      AllNodeIdsArePreorderIds(cs[|cs| - 1]);
      IdsOfAppend(NodesOf(cs[..|cs| - 1]), Nodes(cs[|cs| - 1]));
    }
  }

  /** With every id of the tree expanded, the visible nodes are all of them, in
      preorder. */
  lemma {:induction false} FullyExpandedShowsEveryNode(n: TreeNode, expanded: seq<NodeId>)
    requires forall id :: id in AllNodeIds(n) ==> id in expanded
    ensures AllNodes(n, expanded) == Nodes(n)
    decreases n
  {
    FullyExpandedShowsEveryNodeOf(n.children, expanded);
  }

  lemma {:induction false} FullyExpandedShowsEveryNodeOf(cs: seq<TreeNode>, expanded: seq<NodeId>)
    requires forall id :: id in AllNodeIdsOf(cs) ==> id in expanded
    ensures AllNodesOf(cs, expanded) == NodesOf(cs)
    decreases cs
  {
    if cs != [] {
      FullyExpandedShowsEveryNodeOf(cs[..|cs| - 1], expanded);
      FullyExpandedShowsEveryNode(cs[|cs| - 1], expanded);
    }
  }

  /** After expanding with the tree's own id list, the visible ids are exactly
      that list. */
  lemma ExpandAllShowsEveryNode(tree: TreeNode)
    ensures AllNodes(tree, AllNodeIds(tree)) == Nodes(tree)
    ensures IdsOf(AllNodes(tree, AllNodeIds(tree))) == AllNodeIds(tree)
  {
    FullyExpandedShowsEveryNode(tree, AllNodeIds(tree));
    AllNodeIdsArePreorderIds(tree);
  }

  // ----- Leaves -----

  /** The nodes of a list that have no children, in order. */
  function Childless(ns: seq<TreeNode>): (r: seq<TreeNode>)
    ensures forall m :: m in r <==> m in ns && m.children == []
  {
    if ns == [] then []
    else Childless(ns[..|ns| - 1]) + if ns[|ns| - 1].children == [] then [ns[|ns| - 1]] else []
  }

  lemma {:induction false} ChildlessAppend(a: seq<TreeNode>, b: seq<TreeNode>)
    ensures Childless(a + b) == Childless(a) + Childless(b)
    decreases |b|
  {
    if b != [] {
      var b' := b[..|b| - 1];
      assert (a + b)[..|a + b| - 1] == a + b';
      ChildlessAppend(a, b');
    } else {
      assert a + b == a;
    }
  }

  /** The leaves are exactly the childless nodes of the tree, in preorder. */
  lemma {:induction false} LeavesAreChildlessNodes(n: TreeNode)
    ensures LeafNodes(n) == Childless(Nodes(n))
    decreases n
  {
    LeavesAreChildlessNodesOf(n.children);
    ChildlessAppend([n], NodesOf(n.children));
    assert Childless([n]) == if n.children == [] then [n] else [];
  }

  lemma {:induction false} LeavesAreChildlessNodesOf(cs: seq<TreeNode>)
    ensures LeafNodesOf(cs) == Childless(NodesOf(cs))
    decreases cs
  {
    if cs != [] {
      LeavesAreChildlessNodesOf(cs[..|cs| - 1]);
      LeavesAreChildlessNodes(cs[|cs| - 1]);
      ChildlessAppend(NodesOf(cs[..|cs| - 1]), Nodes(cs[|cs| - 1]));
    }
  }

  // ----- The expansion list -----

  /** The list with every occurrence of `id` removed, the rest in order. */
  function Without(ids: seq<NodeId>, id: NodeId): (r: seq<NodeId>)
    ensures forall x :: x in r <==> x in ids && x != id
    ensures |r| <= |ids|
    ensures id !in ids ==> r == ids
  {
    if ids == [] then []
    else Without(ids[..|ids| - 1], id) + if ids[|ids| - 1] == id then [] else [ids[|ids| - 1]]
  }

  /** Expanding or collapsing one node: a present id is removed everywhere, an
      absent one appended. Exactly that id changes membership. */
  function Toggle(expanded: seq<NodeId>, id: NodeId): (r: seq<NodeId>)
    ensures id in r <==> id !in expanded
    ensures forall x :: x != id ==> (x in r <==> x in expanded)
    ensures id !in expanded ==> r == expanded + [id]
  {
    if id in expanded then Without(expanded, id) else expanded + [id]
  }

  /** Toggling an absent id twice restores the list; toggling a present one
      twice leaves it once, at the end. */
  lemma ToggleTwice(expanded: seq<NodeId>, id: NodeId)
    ensures id !in expanded ==> Toggle(Toggle(expanded, id), id) == expanded
    ensures id in expanded ==> Toggle(Toggle(expanded, id), id) == Without(expanded, id) + [id]
  {
    if id !in expanded {
      assert Without(expanded + [id], id) == expanded by {
        WithoutAppendSelf(expanded, id);
      }
    }
  }

  lemma WithoutAppendSelf(ids: seq<NodeId>, id: NodeId)
    requires id !in ids
    ensures Without(ids + [id], id) == ids
  {
    assert (ids + [id])[..|ids|] == ids;
  }

  // ----- Win rates over the leaves -----

  /** Leaves of a strategy, and those of them that are wins. */
  function StrategyTotal(leaves: seq<TreeNode>, s: TreeStrategy): (t: nat)
    ensures t <= |leaves|
  {
    if leaves == [] then 0
    else StrategyTotal(leaves[..|leaves| - 1], s) + if leaves[|leaves| - 1].strategy == Some(s) then 1 else 0
  }

  function StrategyWins(leaves: seq<TreeNode>, s: TreeStrategy): (w: nat)
    ensures w <= StrategyTotal(leaves, s)
  {
    if leaves == [] then 0
    else
      var last := leaves[|leaves| - 1];
      StrategyWins(leaves[..|leaves| - 1], s) + if last.strategy == Some(s) && last.isWin == Some(true) then 1 else 0
  }

  /** A leaf belongs to at most one strategy, so the stay and switch totals
      together never exceed the number of leaves. */
  lemma {:induction false} StrategyTotalsDisjoint(leaves: seq<TreeNode>)
    ensures StrategyTotal(leaves, StayBranch) + StrategyTotal(leaves, SwitchBranch) <= |leaves|
  {
    if leaves != [] {
      StrategyTotalsDisjoint(leaves[..|leaves| - 1]);
    }
  }

  /** A win rate in percent; no leaves of the strategy give 0. */
  function WinRate(wins: nat, total: nat): (rate: real)
    requires wins <= total
    ensures 0.0 <= rate <= 100.0
    ensures total == 0 ==> rate == 0.0
    ensures total > 0 && wins == total ==> rate == 100.0
  {
    if total > 0 then RatioBelowOne(wins, total); wins as real / total as real * 100.0 else 0.0
  }

  lemma RatioBelowOne(wins: nat, total: nat)
    requires wins <= total && total > 0
    ensures 0.0 <= wins as real / total as real <= 1.0
  {
    assert wins as real <= total as real;
  }

  // ----- Drawing height -----

  /** The largest y among the given nodes, absent ones read as 0. */
  function MaxY(ns: seq<TreeNode>): (m: real)
    requires ns != []
    ensures forall k :: 0 <= k < |ns| ==> Coord(ns[k].y) <= m
    ensures exists k :: 0 <= k < |ns| && Coord(ns[k].y) == m
  {
    if |ns| == 1 then Coord(ns[0].y)
    else
      var rest := MaxY(ns[..|ns| - 1]);
      var last := Coord(ns[|ns| - 1].y);
      if last > rest then last else rest
  }

  /** The height of the drawing: 60 below the lowest node, and never under 320. */
  function SvgHeight(ns: seq<TreeNode>): (h: real)
    requires ns != []
    ensures h >= 320.0
    ensures forall k :: 0 <= k < |ns| ==> h >= Coord(ns[k].y) + 60.0
    ensures h == 320.0 || exists k :: 0 <= k < |ns| && h == Coord(ns[k].y) + 60.0
  {
    var maxY := MaxY(ns) + 60.0;
    if maxY > 320.0 then maxY else 320.0
  }

  // ----- The panel -----

  /** The leaf collection as the panel runs it: a childless node is its own
      leaf, otherwise the children's leaves are pushed in order. */
  method GetLeafNodes(node: TreeNode) returns (leaves: seq<TreeNode>)
    ensures leaves == LeafNodes(node)
    decreases node
  {
    if node.children == [] {
      return [node];
    }
    leaves := [];
    var i := 0;
    while i < |node.children|
      invariant 0 <= i <= |node.children|
      invariant leaves == LeafNodesOf(node.children[..i])
    {
      var sub := GetLeafNodes(node.children[i]);
      assert node.children[..i + 1][..i] == node.children[..i];
      leaves := leaves + sub;
      i := i + 1;
    }
    assert node.children[..i] == node.children;
  }

  /** The panel's state: the tree it shows, the ids it starts expanded with,
      the ids currently expanded and the selected path. */
  class TreeView {
    const treeData: TreeNode
    const initialExpandedNodes: seq<NodeId>
    var expandedNodes: seq<NodeId>
    var selectedPath: seq<NodeId>

    /** Starts with the given expanded ids, by default just the root's id. */
    constructor (treeData: TreeNode, initialExpandedNodes: Option<seq<NodeId>>)
      ensures this.treeData == treeData
      ensures this.initialExpandedNodes == if initialExpandedNodes.Some? then initialExpandedNodes.value else ["root"]
      ensures expandedNodes == this.initialExpandedNodes && selectedPath == []
    {
      this.treeData := treeData;
      this.initialExpandedNodes := if initialExpandedNodes.Some? then initialExpandedNodes.value else ["root"];
      expandedNodes := this.initialExpandedNodes;
      selectedPath := [];
    }

    /** The visible nodes, pushed child by child below expanded nodes. */
    method GetAllNodes(node: TreeNode) returns (nodes: seq<TreeNode>)
      ensures nodes == AllNodes(node, expandedNodes)
      decreases node
    {
      nodes := [node];
      if node.id in expandedNodes {
        var i := 0;
        while i < |node.children|
          invariant 0 <= i <= |node.children|
          invariant nodes == [node] + AllNodesOf(node.children[..i], expandedNodes)
        {
          var sub := GetAllNodes(node.children[i]);
          assert node.children[..i + 1][..i] == node.children[..i];
          nodes := nodes + sub;
          i := i + 1;
        }
        assert node.children[..i] == node.children;
      }
    }

    /** The connection lines: for each child of an expanded node, the line to
        it and then the lines below it. */
    method GetConnectionLines(node: TreeNode) returns (lines: seq<Line>)
      ensures lines == ConnectionLines(node, expandedNodes)
      decreases node
    {
      lines := [];
      if node.id in expandedNodes {
        var i := 0;
        while i < |node.children|
          invariant 0 <= i <= |node.children|
          invariant lines == LinesOf(node, node.children[..i], expandedNodes)
        {
          var child := node.children[i];
          var nodeX, nodeY := Coord(node.x), Coord(node.y);
          var childX, childY := Coord(child.x), Coord(child.y);
          assert node.children[..i + 1][..i] == node.children[..i];
          lines := lines + [Line(Point(nodeX, nodeY + 20.0), Point(childX, childY - 10.0))];
          var sub := GetConnectionLines(child);
          lines := lines + sub;
          i := i + 1;
        }
        assert node.children[..i] == node.children;
      }
    }

    /** Every id below `node`, whatever is expanded. */
    method GetAllNodeIds(node: TreeNode) returns (nodeIds: seq<NodeId>)
      ensures nodeIds == AllNodeIds(node)
      decreases node
    {
      nodeIds := [node.id];
      var i := 0;
      while i < |node.children|
        invariant 0 <= i <= |node.children|
        invariant nodeIds == [node.id] + AllNodeIdsOf(node.children[..i])
      {
        var sub := GetAllNodeIds(node.children[i]);
        assert node.children[..i + 1][..i] == node.children[..i];
        nodeIds := nodeIds + sub;
        i := i + 1;
      }
      assert node.children[..i] == node.children;
    }

    /** Expands a collapsed node or collapses an expanded one. */
    method ToggleNodeExpansion(nodeId: NodeId)
      modifies this`expandedNodes
      ensures expandedNodes == Toggle(old(expandedNodes), nodeId)
    {
      if nodeId in expandedNodes {
        expandedNodes := Without(expandedNodes, nodeId);
      } else {
        expandedNodes := expandedNodes + [nodeId];
      }
    }

    /** Back to the initial expansion with nothing selected. */
    method ResetTree()
      modifies this`expandedNodes, this`selectedPath
      ensures expandedNodes == initialExpandedNodes && selectedPath == []
    {
      expandedNodes := initialExpandedNodes;
      selectedPath := [];
    }

    /** Expands every node, after which every node of the tree is visible. */
    method ExpandAll()
      modifies this`expandedNodes
      ensures expandedNodes == AllNodeIds(treeData)
      ensures AllNodes(treeData, expandedNodes) == Nodes(treeData)
    {
      var allNodeIds := GetAllNodeIds(treeData);
      expandedNodes := allNodeIds;
      ExpandAllShowsEveryNode(treeData);
    }

    /** The stay and switch win rates over the leaves of the tree. */
    method CalculateWinRates() returns (stay: real, switch: real)
      ensures var leaves := LeafNodes(treeData);
              && stay == WinRate(StrategyWins(leaves, StayBranch), StrategyTotal(leaves, StayBranch))
              && switch == WinRate(StrategyWins(leaves, SwitchBranch), StrategyTotal(leaves, SwitchBranch))
      ensures 0.0 <= stay <= 100.0 && 0.0 <= switch <= 100.0
    {
      var leafNodes := GetLeafNodes(treeData);
      stay := WinRate(StrategyWins(leafNodes, StayBranch), StrategyTotal(leafNodes, StayBranch));
      switch := WinRate(StrategyWins(leafNodes, SwitchBranch), StrategyTotal(leafNodes, SwitchBranch));
    }

    /** The drawing height for the nodes currently visible. */
    method ComputeSvgHeight() returns (h: real)
      ensures h == SvgHeight(AllNodes(treeData, expandedNodes))
      ensures h >= 320.0 && h >= Coord(treeData.y) + 60.0
    {
      var allNodes := GetAllNodes(treeData);
      h := SvgHeight(allNodes);
    }
  }
}
