/**
 * Bounded tree search over tool names, with its visit accounting. Scores, the
 * upper-confidence formula and the pseudo-random draw are arbitrary functions
 * here: which tool is tried and which child is chosen does not matter.
 */
module TreeSearch {
  import opened Common

  const MAX_ITERATIONS := 100_000
  const MAX_DEPTH := 64

  datatype Node = Node(name: string, visits: nat, children: seq<Node>)

  /** The choices made at iteration `i` and depth `d`: a tool to try, and a child to follow. */
  datatype Choices = Choices(draw: (nat, nat) -> nat, pick: (nat, nat, Node) -> nat)

  /** A pick is the index of a child whenever there is one. */
  ghost predicate Picks(c: Choices) {
    forall i: nat, d: nat, n: Node :: n.children != [] ==> c.pick(i, d, n) < |n.children|
  }

  predicate Named(children: seq<Node>, name: string) {
    exists k :: 0 <= k < |children| && children[k].name == name
  }

  /** A node that does not have all tools below it yet gets the drawn one, if it is new. */
  function Widened(tools: seq<string>, node: Node, i: nat, d: nat, c: Choices): Node
    requires tools != []
  {
    if |node.children| >= |tools| then node
    else
      var name := tools[c.draw(i, d) % |tools|];
      if Named(node.children, name) then node else node.(children := node.children + [Node(name, 0, [])])
  }

  lemma WidenedHasChildren(tools: seq<string>, node: Node, i: nat, d: nat, c: Choices)
    requires tools != []
    ensures Widened(tools, node, i, d, c).children != []
  {
  }

  /** Walk down `depth` levels, widening on the way; the path lists the names taken. */
  ghost function Grow(tools: seq<string>, node: Node, depth: nat, i: nat, d: nat, c: Choices): (Node, seq<string>)
    requires tools != [] && Picks(c)
    decreases depth
  {
    if depth == 0 then (node, [])
    else
      var wide := Widened(tools, node, i, d, c);
      WidenedHasChildren(tools, node, i, d, c);
      var k := c.pick(i, d, wide);
      var (below, rest) := Grow(tools, wide.children[k], depth - 1, i, d + 1, c);
      (wide.(children := wide.children[k := below]), [wide.children[k].name] + rest)
  }

  function IndexOf(children: seq<Node>, name: string): (k: nat)
    requires Named(children, name)
    ensures k < |children| && children[k].name == name
  {
    if children[0].name == name then 0
    else
      assert forall j :: 0 < j < |children| ==> children[j] == children[1..][j - 1];
      1 + IndexOf(children[1..], name)
  }

  function Visited(n: Node): Node {
    n.(visits := n.visits + 1)
  }

  /** `update_path`: one more visit for every node on the path. */
  function UpdatePath(node: Node, path: seq<string>): Node
    decreases |path|
  {
    if path == [] || !Named(node.children, path[0]) then node
    else
      var k := IndexOf(node.children, path[0]);
      node.(children := node.children[k := UpdatePath(Visited(node.children[k]), path[1..])])
  }

  // ----- the accounting -----

  ghost function VisitSum(children: seq<Node>): nat {
    if children == [] then 0 else VisitSum(children[..|children| - 1]) + children[|children| - 1].visits
  }

  predicate DistinctNames(children: seq<Node>) {
    forall j, k :: 0 <= j < k < |children| ==> children[j].name != children[k].name
  }

  /**
   * Above the bottom, a node was visited as often as its children together; no
   * node has two children of one name, and every child is one of the tools.
   */
  ghost predicate Balanced(tools: seq<string>, node: Node, depth: nat)
    decreases depth
  {
    if depth == 0 then node.children == []
    else
      && node.visits == VisitSum(node.children) && DistinctNames(node.children)
      && forall k :: 0 <= k < |node.children| ==>
           node.children[k].name in tools && Balanced(tools, node.children[k], depth - 1)
  }

  lemma {:induction false} VisitSumUpdate(children: seq<Node>, k: nat, n: Node)
    requires k < |children|
    ensures VisitSum(children[k := n]) == VisitSum(children) - children[k].visits + n.visits
  {
    var m := |children| - 1;
    if k == m {
      assert children[k := n][..m] == children[..m];
    } else {
      assert children[k := n][..m] == children[..m][k := n];
      VisitSumUpdate(children[..m], k, n);
    }
  }

  /** The path leads from child to child. */
  ghost predicate Leads(node: Node, path: seq<string>)
    decreases |path|
  {
    path == [] || (Named(node.children, path[0]) && Leads(node.children[IndexOf(node.children, path[0])], path[1..]))
  }

  lemma {:induction false} UnvisitedIsBalanced(tools: seq<string>, name: string, depth: nat)
    ensures Balanced(tools, Node(name, 0, []), depth)
  {
  }

  lemma WidenKeeps(tools: seq<string>, node: Node, depth: nat, i: nat, d: nat, c: Choices)
    requires tools != [] && depth > 0 && Balanced(tools, node, depth)
    ensures Balanced(tools, Widened(tools, node, i, d, c), depth)
    ensures Widened(tools, node, i, d, c).visits == node.visits && Widened(tools, node, i, d, c).name == node.name
  {
  }

  lemma SameNameSameIndex(children: seq<Node>, k: nat)
    requires DistinctNames(children) && k < |children|
    ensures Named(children, children[k].name) && IndexOf(children, children[k].name) == k
  {
  }

  /** A child may be replaced by a balanced one of the same name; the sum follows. */
  lemma ReplaceChild(tools: seq<string>, node: Node, depth: nat, k: nat, below: Node)
    requires depth > 0 && Balanced(tools, node, depth) && k < |node.children|
    requires below.name == node.children[k].name && Balanced(tools, below, depth - 1)
    ensures var visits := node.visits - node.children[k].visits + below.visits;
            visits >= 0 && Balanced(tools, Node(node.name, visits, node.children[k := below]), depth)
  {
    VisitSumUpdate(node.children, k, below);
  }

  /** Growing changes no visit count and yields a full-length path. */
  lemma {:induction false} GrowKeeps(tools: seq<string>, node: Node, depth: nat, i: nat, d: nat, c: Choices)
    requires tools != [] && Picks(c) && Balanced(tools, node, depth)
    ensures var (n, path) := Grow(tools, node, depth, i, d, c);
            && Balanced(tools, n, depth) && n.visits == node.visits && n.name == node.name
            && |path| == depth && Leads(n, path)
    decreases depth
  {
    hide Widened;
    if depth > 0 {
      var wide := Widened(tools, node, i, d, c);
      WidenKeeps(tools, node, depth, i, d, c);
      WidenedHasChildren(tools, node, i, d, c);
      var k := c.pick(i, d, wide);
      GrowKeeps(tools, wide.children[k], depth - 1, i, d + 1, c);
      var (below, rest) := Grow(tools, wide.children[k], depth - 1, i, d + 1, c);
      ReplaceChild(tools, wide, depth, k, below);
      SameNameSameIndex(wide.children[k := below], k);
      assert ([wide.children[k].name] + rest)[1..] == rest;
    }
  }

  /** One more visit all along a full path keeps every sum right. */
  lemma {:induction false} UpdateKeeps(tools: seq<string>, node: Node, path: seq<string>, depth: nat)
    requires Balanced(tools, node, depth) && |path| == depth && Leads(node, path)
    ensures Balanced(tools, UpdatePath(Visited(node), path), depth)
    ensures UpdatePath(Visited(node), path).visits == node.visits + 1 && UpdatePath(Visited(node), path).name == node.name
    decreases depth
  {
    if depth > 0 {
      var k := IndexOf(node.children, path[0]);
      UpdateKeeps(tools, node.children[k], path[1..], depth - 1);
      ReplaceChild(tools, node, depth, k, UpdatePath(Visited(node.children[k]), path[1..]));
    }
  }

  /** One iteration of the search. */
  ghost function Iterated(tools: seq<string>, root: Node, depth: nat, i: nat, c: Choices): Node
    requires tools != [] && Picks(c)
  {
    var (grown, path) := Grow(tools, root, depth, i, 0, c);
    UpdatePath(Visited(grown), path)
  }

  function ClampedDepth(maxDepth: nat): nat {
    if maxDepth < 1 then 1 else Min(maxDepth, MAX_DEPTH)
  }

  /** The tree after the first `n` iterations. */
  ghost function Searched(tools: seq<string>, depth: nat, n: nat, c: Choices): Node
    requires tools != [] && Picks(c)
  {
    if n == 0 then Node("root", 0, []) else Iterated(tools, Searched(tools, depth, n - 1, c), depth, n - 1, c)
  }

  /**
   * After any number of iterations every inner node's visits are the sum of its
   * children's, and the root's are the iterations made.
   */
  lemma {:induction false} SearchedIsBalanced(tools: seq<string>, depth: nat, n: nat, c: Choices)
    requires tools != [] && Picks(c)
    ensures Balanced(tools, Searched(tools, depth, n, c), depth) && Searched(tools, depth, n, c).visits == n
  {
    hide Balanced, Grow, UpdatePath;
    if n == 0 {
      UnvisitedIsBalanced(tools, "root", depth);
    } else {
      var root := Searched(tools, depth, n - 1, c);
      SearchedIsBalanced(tools, depth, n - 1, c);
      GrowKeeps(tools, root, depth, n - 1, 0, c);
      var (grown, path) := Grow(tools, root, depth, n - 1, 0, c);
      UpdateKeeps(tools, grown, path, depth);
    }
  }

  /** `search_bounded`. */
  method SearchBounded(tools: seq<string>, iterations: nat, maxDepth: nat, c: Choices) returns (root: Node)
    requires tools != [] && Picks(c)
    ensures root == Searched(tools, ClampedDepth(maxDepth), Min(iterations, MAX_ITERATIONS), c)
  {
    hide Grow;
    root := Node("root", 0, []);
    var depth := ClampedDepth(maxDepth);
    var budget := Min(iterations, MAX_ITERATIONS);
    var i := 0;
    while i < budget
      invariant i <= budget && root == Searched(tools, depth, i, c)
    {
      var grown, path := GrowInPlace(tools, root, depth, i, 0, c);
      grown := grown.(visits := grown.visits + 1);
      root := UpdatePath(grown, path);
      i := i + 1;
    }
  }

  /** The walk down the tree, one level at a time. */
  method GrowInPlace(tools: seq<string>, node: Node, depth: nat, i: nat, d: nat, c: Choices) returns (grown: Node, path: seq<string>)
    requires tools != [] && Picks(c)
    ensures (grown, path) == Grow(tools, node, depth, i, d, c)
    decreases depth
  {
    if depth == 0 { return node, []; }
    var wide := Widened(tools, node, i, d, c);
    WidenedHasChildren(tools, node, i, d, c);
    var k := c.pick(i, d, wide);
    var below, rest := GrowInPlace(tools, wide.children[k], depth - 1, i, d + 1, c);
    return wide.(children := wide.children[k := below]), [wide.children[k].name] + rest;
  }

  // ----- reading the result -----

  /** How one visited child is preferred to the others. */
  type Preference = Node -> nat

  ghost predicate Prefers(best: Preference) {
    forall n: Node :: HasVisited(n) ==> best(n) < |n.children| && n.children[best(n)].visits > 0
  }

  predicate HasVisited(n: Node) {
    exists k :: 0 <= k < |n.children| && n.children[k].visits > 0
  }

  lemma {:induction false} PositiveSum(children: seq<Node>)
    requires VisitSum(children) > 0
    ensures exists k :: 0 <= k < |children| && children[k].visits > 0
  {
    var m := |children| - 1;
    if children[m].visits == 0 {
      PositiveSum(children[..m]);
      var k :| 0 <= k < m && children[..m][k].visits > 0;
      assert children[k].visits > 0;
    }
  }

  lemma VisitedBelow(tools: seq<string>, n: Node, depth: nat)
    requires Balanced(tools, n, depth) && n.visits > 0
    ensures HasVisited(n) <==> depth > 0
    ensures depth > 0 ==> forall k :: 0 <= k < |n.children| ==>
              n.children[k].name in tools && Balanced(tools, n.children[k], depth - 1)
  {
    if depth > 0 { PositiveSum(n.children); }
  }

  /** From visited child to visited child, as preferred. */
  ghost function Followed(n: Node, best: Preference): seq<string>
    requires Prefers(best)
  {
    if HasVisited(n) then [n.children[best(n)].name] + Followed(n.children[best(n)], best) else []
  }

  /** In a visited, balanced tree the path goes all the way down, through tools only. */
  lemma {:induction false} FollowedIsFull(tools: seq<string>, n: Node, depth: nat, best: Preference)
    requires Prefers(best) && Balanced(tools, n, depth) && n.visits > 0
    ensures |Followed(n, best)| == depth && forall name :: name in Followed(n, best) ==> name in tools
    decreases depth
  {
    hide Balanced;
    VisitedBelow(tools, n, depth);
    if depth > 0 {
      FollowedIsFull(tools, n.children[best(n)], depth - 1, best);
    }
  }

  /** `best_path`. */
  method BestPath(root: Node, best: Preference) returns (path: seq<string>)
    requires Prefers(best)
    ensures path == Followed(root, best)
  {
    path := [];
    var n := root;
    while HasVisited(n)
      invariant path + Followed(n, best) == Followed(root, best)
      decreases n
    {
      var child := n.children[best(n)];
      assert path + Followed(n, best) == path + [child.name] + Followed(child, best);
      n := child;
      path := path + [n.name];
    }
  }

  /** Any search of at least one iteration selects a full path of tools. */
  lemma SelectionIsTotal(tools: seq<string>, depth: nat, n: nat, c: Choices, best: Preference)
    requires tools != [] && Picks(c) && Prefers(best) && n > 0
    ensures var path := Followed(Searched(tools, depth, n, c), best);
            |path| == depth && forall name :: name in path ==> name in tools
  {
    hide Balanced, Searched, Followed;
    SearchedIsBalanced(tools, depth, n, c);
    FollowedIsFull(tools, Searched(tools, depth, n, c), depth, best);
  }
}
