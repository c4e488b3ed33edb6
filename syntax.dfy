/** The parsed syntax tree, as far as the analyzer inspects it, and the
    breadth-first traversal that Python's `ast.walk` performs over it. */
module Syntax {
  import opened Wrappers
  import opened Seqs

  /** The statement kinds that `_get_nested_depth` treats as nesting. */
  datatype Block = For | While | If | With | Try

  /** What the analyzer can tell about one node.  `FunctionDef` carries the
      raw docstring literal that `ast.get_docstring` looks for; every node kind the
      analyzer never tests with `isinstance` (the module itself, expressions,
      `AsyncFunctionDef`, exception handlers, ...) is `Other`. */
  datatype Kind =
    | FunctionDef(name: string, line: int, docstring: Option<string>)
    | ClassDef(name: string, line: int)
    | Import
    | ImportFrom
    | Compound(block: Block)
    | Other

  /** A node and its children in source order.  For a `FunctionDef` the
      children are exactly its body statements, so `|children|` is
      `len(node.body)`. */
  datatype Node = Node(kind: Kind, children: seq<Node>)

  function Size(n: Node): nat
  {
    1 + ForestSize(n.children)
  }

  function ForestSize(s: seq<Node>): nat
  {
    if s == [] then 0 else Size(s[0]) + ForestSize(s[1..])
  }

  lemma {:induction false} ForestSizeConcat(a: seq<Node>, b: seq<Node>)
    ensures ForestSize(a + b) == ForestSize(a) + ForestSize(b)
  {
    if a != [] {
      assert (a + b)[1..] == a[1..] + b;
      ForestSizeConcat(a[1..], b);
    } else {
      assert a + b == b;
    }
  }

  /** The generator loop of `ast.walk`: pop the front of the queue, push its
      children at the back, and yield the popped node. */
  function WalkQueue(queue: seq<Node>): seq<Node>
    decreases ForestSize(queue)
  {
    if queue == [] then []
    else
      ForestSizeConcat(queue[1..], queue[0].children);
      assert ForestSize(queue) == 1 + ForestSize(queue[0].children) + ForestSize(queue[1..]);
      [queue[0]] + WalkQueue(queue[1..] + queue[0].children)
  }

  /** `ast.walk(root)`: every node of the tree, breadth first, root first. */
  function Walk(root: Node): (w: seq<Node>)
    ensures |w| >= 1 && w[0] == root
  {
    WalkQueue([root])
  }

  /** Reference count of the nodes of a tree that satisfy `p`, by structural
      recursion (independent of the traversal order). */
  function TreeCount(p: Node -> bool, n: Node): nat
  {
    (if p(n) then 1 else 0) + ForestCount(p, n.children)
  }

  function ForestCount(p: Node -> bool, s: seq<Node>): nat
  {
    if s == [] then 0 else TreeCount(p, s[0]) + ForestCount(p, s[1..])
  }

  lemma {:induction false} ForestCountConcat(p: Node -> bool, a: seq<Node>, b: seq<Node>)
    ensures ForestCount(p, a + b) == ForestCount(p, a) + ForestCount(p, b)
  {
    if a != [] {
      assert (a + b)[1..] == a[1..] + b;
      ForestCountConcat(p, a[1..], b);
    } else {
      assert a + b == b;
    }
  }

  /** The walk of a queue yields each node of each queued tree exactly once:
      counting any kind of node over the walk agrees with the structural count. */
  lemma {:induction false} WalkQueueCount(p: Node -> bool, queue: seq<Node>)
    ensures Count(p, WalkQueue(queue)) == ForestCount(p, queue)
    decreases ForestSize(queue)
  {
    if queue != [] {
      var head, rest := queue[0], queue[1..];
      ForestSizeConcat(rest, head.children);
      assert ForestSize(queue) == 1 + ForestSize(head.children) + ForestSize(rest);
      WalkQueueCount(p, rest + head.children);
      CountConcat(p, [head], WalkQueue(rest + head.children));
      ForestCountConcat(p, rest, head.children);
      assert Count(p, [head]) == (if p(head) then 1 else 0) by {
        assert [head][..0] == [];
      }
    }
  }

  lemma WalkCount(p: Node -> bool, root: Node)
    ensures Count(p, Walk(root)) == TreeCount(p, root)
  {
    WalkQueueCount(p, [root]);
    assert [root][1..] == [];
  }

  /** The walk visits as many nodes as the tree has. */
  lemma WalkLength(root: Node)
    ensures |Walk(root)| == Size(root)
  {
    var all := (n: Node) => true;
    WalkCount(all, root);
    AllCount(all, Walk(root));
    TreeCountAll(all, root);
  }

  lemma {:induction false} TreeCountAll(p: Node -> bool, n: Node)
    requires forall x :: p(x)
    ensures TreeCount(p, n) == Size(n)
    decreases n, 1
  {
    ForestCountAll(p, n.children);
  }

  lemma {:induction false} ForestCountAll(p: Node -> bool, s: seq<Node>)
    requires forall x :: p(x)
    ensures ForestCount(p, s) == ForestSize(s)
    decreases s, 0
  {
    if s != [] {
      TreeCountAll(p, s[0]);
      ForestCountAll(p, s[1..]);
    }
  }
}
