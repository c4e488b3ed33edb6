/** What the analyzer's report means, stated against the structural counts
    of the tree rather than against the traversal the detectors perform. */
module AnalysisProperties {
  import opened Wrappers
  import opened Seqs
  import opened Syntax
  import opened Text
  import opened StaticAnalysis

  predicate IsMediumComplexity(i: CodeIssue) { i.issueType == Complexity && i.severity == Medium }

  // ---------------------------------------------------------------------
  // Complexity detector

  /** Every complexity issue is the long-body issue of a function whose body
      has more than 50 statements, or the nesting issue of a function with
      more than three nesting statements, and each such function's issue is
      in the list. */
  lemma ComplexityIssueMember(tree: Node, u: CodeIssue)
    ensures u in ComplexityIssues(tree) <==>
      exists n :: n in Walk(tree) &&
        ((IsLongFunction(n) && u == LongFunctionIssue(n)) || (IsDeeplyNestedFunction(n) && u == NestedLevelsIssue(n)))
  {
    FlatMapMember(FunctionComplexityIssues, Walk(tree), u);
  }

  /** One medium-severity complexity issue per function whose body has more
      than 50 statements, wherever it is in the tree. */
  lemma LongFunctionIssueCount(tree: Node)
    ensures Count(IsMediumComplexity, ComplexityIssues(tree)) == TreeCount(IsLongFunction, tree)
  {
    forall n | n in Walk(tree)
      ensures Count(IsMediumComplexity, FunctionComplexityIssues(n)) == (if IsLongFunction(n) then 1 else 0)
    {
      ComplexityIssuesOfNode(IsMediumComplexity, n);
    }
    CountFlatMap(IsMediumComplexity, IsLongFunction, FunctionComplexityIssues, Walk(tree));
    WalkCount(IsLongFunction, tree);
  }

  /** One high-severity issue per function with more than three nesting
      statements in its subtree. */
  lemma NestedLevelsIssueCount(tree: Node)
    ensures Count(IsHigh, ComplexityIssues(tree)) == TreeCount(IsDeeplyNestedFunction, tree)
  {
    forall n | n in Walk(tree)
      ensures Count(IsHigh, FunctionComplexityIssues(n)) == (if IsDeeplyNestedFunction(n) then 1 else 0)
    {
      ComplexityIssuesOfNode(IsHigh, n);
    }
    CountFlatMap(IsHigh, IsDeeplyNestedFunction, FunctionComplexityIssues, Walk(tree));
    WalkCount(IsDeeplyNestedFunction, tree);
  }

  lemma ComplexityIssuesOfNode(q: CodeIssue -> bool, n: Node)
    ensures Count(q, FunctionComplexityIssues(n)) ==
      (if IsLongFunction(n) && q(LongFunctionIssue(n)) then 1 else 0)
      + (if IsDeeplyNestedFunction(n) && q(NestedLevelsIssue(n)) then 1 else 0)
  {
    if n.kind.FunctionDef? {
      var long := if |n.children| > MaxBodyStatements then [LongFunctionIssue(n)] else [];
      var nested := if NestingCount(n) > MaxNestingCount then [NestedLevelsIssue(n)] else [];
      CountConcat(q, long, nested);
      if long != [] { CountSingleton(q, LongFunctionIssue(n)); }
      if nested != [] { CountSingleton(q, NestedLevelsIssue(n)); }
    }
  }

  // ---------------------------------------------------------------------
  // The nesting counter against the nesting depth

  /** The nesting depth that `_get_nested_depth` is documented to calculate
      ("Calculate nesting depth of a function"): the largest number of nesting
      statements on one path from the node down. */
  function MaxNestingDepth(n: Node): nat
  {
    (if IsNesting(n) then 1 else 0) + ForestMaxNestingDepth(n.children)
  }

  function ForestMaxNestingDepth(s: seq<Node>): nat
  {
    if s == [] then 0
    else
      var first, rest := MaxNestingDepth(s[0]), ForestMaxNestingDepth(s[1..]);
      if first >= rest then first else rest
  }

  /** The value `_get_nested_depth` returns is never below the true depth, so
      the nesting check reports every function the intended check would. */
  lemma {:induction false} NestingCountBoundsDepth(n: Node)
    ensures MaxNestingDepth(n) <= NestingCount(n)
    decreases n, 1
  {
    ForestNestingCountBoundsDepth(n.children);
  }

  lemma {:induction false} ForestNestingCountBoundsDepth(s: seq<Node>)
    ensures ForestMaxNestingDepth(s) <= ForestCount(IsNesting, s)
    decreases s, 0
  {
    if s != [] {
      NestingCountBoundsDepth(s[0]);
      ForestNestingCountBoundsDepth(s[1..]);
    }
  }

  /** A function made of four `if` statements one after another, none
      inside another.  Its nesting depth is 1, yet the counter reaches 4 and
      the function is reported with too many nested levels. */
  function FlatIfs(): Node
  {
    var leaf := Node(Compound(If), []);
    Node(FunctionDef("check", 7, Some("Check things.")), [leaf, leaf, leaf, leaf])
  }

  lemma FlatIfsReportedAsNested()
    ensures MaxNestingDepth(FlatIfs()) == 1
    ensures NestingCount(FlatIfs()) == 4
    ensures FunctionComplexityIssues(FlatIfs()) ==
      [CodeIssue(7, Complexity, "Function has too many nested levels (4)", High)]
  {
    var leaf := Node(Compound(If), []);
    var body := [leaf, leaf, leaf, leaf];
    assert MaxNestingDepth(leaf) == 1 && TreeCount(IsNesting, leaf) == 1;
    assert body[3..] == [leaf] && body[3..][1..] == [];
    assert ForestMaxNestingDepth(body[3..]) == 1 && ForestCount(IsNesting, body[3..]) == 1;
    assert body[2..][1..] == body[3..];
    assert ForestMaxNestingDepth(body[2..]) == 1 && ForestCount(IsNesting, body[2..]) == 2;
    assert body[1..][1..] == body[2..];
    assert ForestMaxNestingDepth(body[1..]) == 1 && ForestCount(IsNesting, body[1..]) == 3;
    assert ForestMaxNestingDepth(body) == 1 && ForestCount(IsNesting, body) == 4;
    assert NestingCount(FlatIfs()) == 4;
    assert NatToString(4) == "4";
    assert NestedLevelsMessage(4) == "Function has too many nested levels (4)";
    assert NestedLevelsIssue(FlatIfs()) == CodeIssue(7, Complexity, "Function has too many nested levels (4)", High);
  }

  // ---------------------------------------------------------------------
  // Naming detector

  /** Every naming issue is the single issue of a badly named function or
      class of the tree, and every badly named one has its issue. */
  lemma NamingIssueMember(tree: Node, u: CodeIssue)
    ensures u in NamingIssues(tree) <==> exists n :: n in Walk(tree) && IsBadlyNamed(n) && NamingIssue(n) == [u]
  {
    FlatMapMember(NamingIssue, Walk(tree), u);
  }

  /** A function's issue says its name is not snake_case, a class's that its
      name is not PascalCase; both are low-severity naming issues at the
      definition's line, and a node gets at most one. */
  lemma NamingIssueOfNode(n: Node)
    ensures |NamingIssue(n)| == (if IsBadlyNamed(n) then 1 else 0)
    ensures n.kind.FunctionDef? && IsBadlyNamed(n) ==>
      NamingIssue(n) == [CodeIssue(n.kind.line, Naming, FunctionNameMessage, Low)]
    ensures n.kind.ClassDef? && IsBadlyNamed(n) ==>
      NamingIssue(n) == [CodeIssue(n.kind.line, Naming, ClassNameMessage, Low)]
  {
  }

  lemma NamingIssueCount(tree: Node)
    ensures |NamingIssues(tree)| == TreeCount(IsBadlyNamed, tree)
  {
    var none := (n: Node) => false;
    FlatMapLength(NamingIssue, IsBadlyNamed, none, Walk(tree));
    CountZero(none, Walk(tree));
    WalkCount(IsBadlyNamed, tree);
  }

  /** A module holding a function `BadName` on line 1 and a class `bad_name`
      on line 4, each with a one-statement body. */
  function BadNamesModule(): Node
  {
    Node(Other, [
      Node(FunctionDef("BadName", 1, Some("Doc.")), [Node(Other, [])]),
      Node(ClassDef("bad_name", 4), [Node(Other, [])])])
  }

  /** The walk visits the module, then both definitions, then their bodies. */
  lemma BadNamesModuleWalk()
    ensures Walk(BadNamesModule()) == [BadNamesModule(), BadNamesModule().children[0],
      BadNamesModule().children[1], Node(Other, []), Node(Other, [])]
  {
    var leaf := Node(Other, []);
    var root := BadNamesModule();
    var f, c := root.children[0], root.children[1];
    assert WalkQueue([leaf]) == [leaf];
    assert WalkQueue([leaf, leaf]) == [leaf, leaf] by {
      assert [leaf, leaf][1..] + [] == [leaf];
    }
    assert WalkQueue([c, leaf]) == [c, leaf, leaf] by {
      assert [c, leaf][1..] + c.children == [leaf, leaf];
    }
    assert WalkQueue([f, c]) == [f, c, leaf, leaf] by {
      assert [f, c][1..] + f.children == [c, leaf];
    }
    assert [root][1..] + root.children == [f, c];
  }

  /** Exactly two naming issues, the function's first, each at its own line. */
  lemma BadNamesExample()
    ensures NamingIssues(BadNamesModule())
      == [CodeIssue(1, Naming, FunctionNameMessage, Low), CodeIssue(4, Naming, ClassNameMessage, Low)]
  {
    var leaf := Node(Other, []);
    var root := BadNamesModule();
    var f, c := root.children[0], root.children[1];
    BadNamesModuleWalk();
    var w := [root, f, c, leaf, leaf];
    assert !IsSnakeCase("BadName") by { assert !IsLowerAscii('B'); }
    assert !IsPascalCase("bad_name") by { assert !IsUpperAscii('b'); }
    assert NamingIssue(f) == [CodeIssue(1, Naming, FunctionNameMessage, Low)];
    assert NamingIssue(c) == [CodeIssue(4, Naming, ClassNameMessage, Low)];
    assert NamingIssue(root) == [] && NamingIssue(leaf) == [];
    assert FlatMap(NamingIssue, w[..1]) == [] by {
      assert w[..1][..0] == [];
    }
    FlatMapPrefix(NamingIssue, w, 1);
    FlatMapPrefix(NamingIssue, w, 2);
    FlatMapPrefix(NamingIssue, w, 3);
    FlatMapPrefix(NamingIssue, w, 4);
    assert w[..5] == w;
  }

  // ---------------------------------------------------------------------
  // Import detector

  /** At most one import issue, at line 1, present exactly when the tree
      holds more than 20 `import` and `from ... import` statements. */
  lemma ImportIssueIffOverLimit(tree: Node)
    ensures ImportIssues(tree) ==
      if TreeCount(IsImport, tree) + TreeCount(IsImportFrom, tree) > MaxImports
      then [CodeIssue(1, Imports, TooManyImportsMessage, Medium)] else []
  {
    WalkCount(IsImport, tree);
    WalkCount(IsImportFrom, tree);
  }

  // ---------------------------------------------------------------------
  // Documentation detector

  lemma DocumentationIssueMember(tree: Node, u: CodeIssue)
    ensures u in DocumentationIssues(tree) <==>
      exists n :: n in Walk(tree) && LacksDocstring(n) && u == CodeIssue(n.kind.line, Documentation, MissingDocstringMessage, Low)
  {
    FlatMapMember(DocumentationIssue, Walk(tree), u);
  }

  /** One documentation issue per function with no docstring or an empty one. */
  lemma DocumentationIssueCount(tree: Node)
    ensures |DocumentationIssues(tree)| == TreeCount(LacksDocstring, tree)
  {
    var none := (n: Node) => false;
    FlatMapLength(DocumentationIssue, LacksDocstring, none, Walk(tree));
    CountZero(none, Walk(tree));
    WalkCount(LacksDocstring, tree);
  }

  // ---------------------------------------------------------------------
  // The report

  /** `high_severity_issues`, the number of high-severity issues of a
      successful run, counts exactly the functions with more than three
      nesting statements: no other pass emits a high-severity issue. */
  lemma HighSeverityIssuesAreNestedFunctions(tree: Node)
    ensures Count(IsHigh, AllIssues(tree)) == TreeCount(IsDeeplyNestedFunction, tree)
  {
    var c, n, i, d := ComplexityIssues(tree), NamingIssues(tree), ImportIssues(tree), DocumentationIssues(tree);
    var none := (x: Node) => false;
    CountZero(none, Walk(tree));
    forall x | x in Walk(tree)
      ensures Count(IsHigh, NamingIssue(x)) == (if none(x) then 1 else 0)
    {
      if NamingIssue(x) != [] { CountSingleton(IsHigh, NamingIssue(x)[0]); }
    }
    CountFlatMap(IsHigh, none, NamingIssue, Walk(tree));
    forall x | x in Walk(tree)
      ensures Count(IsHigh, DocumentationIssue(x)) == (if none(x) then 1 else 0)
    {
      if DocumentationIssue(x) != [] { CountSingleton(IsHigh, DocumentationIssue(x)[0]); }
    }
    CountFlatMap(IsHigh, none, DocumentationIssue, Walk(tree));
    if i != [] { CountSingleton(IsHigh, i[0]); }
    CountConcat(IsHigh, c, n);
    CountConcat(IsHigh, c + n, i);
    CountConcat(IsHigh, c + n + i, d);
    NestedLevelsIssueCount(tree);
  }

  /** `total_issues`, the length of a successful run's issue list, is the
      sum over the five rules: long bodies, nesting, names, the import limit
      and missing docstrings. */
  lemma TotalIssuesBreakdown(tree: Node)
    ensures |AllIssues(tree)| ==
      TreeCount(IsLongFunction, tree) + TreeCount(IsDeeplyNestedFunction, tree)
      + TreeCount(IsBadlyNamed, tree)
      + (if TreeCount(IsImport, tree) + TreeCount(IsImportFrom, tree) > MaxImports then 1 else 0)
      + TreeCount(LacksDocstring, tree)
  {
    FlatMapLength(FunctionComplexityIssues, IsLongFunction, IsDeeplyNestedFunction, Walk(tree));
    WalkCount(IsLongFunction, tree);
    WalkCount(IsDeeplyNestedFunction, tree);
    NamingIssueCount(tree);
    ImportIssueIffOverLimit(tree);
    DocumentationIssueCount(tree);
  }

  /** A tree without function or class definitions gets no complexity,
      naming or documentation issue; only the import rule can still fire. */
  lemma NoDefinitionsOnlyImportIssues(tree: Node)
    requires TreeCount(IsFunctionDef, tree) == 0 && TreeCount(IsClassDef, tree) == 0
    ensures ComplexityIssues(tree) == [] && NamingIssues(tree) == [] && DocumentationIssues(tree) == []
    ensures AllIssues(tree) == ImportIssues(tree)
  {
    WalkCount(IsFunctionDef, tree);
    WalkCount(IsClassDef, tree);
    CountZero(IsFunctionDef, Walk(tree));
    CountZero(IsClassDef, Walk(tree));
    FlatMapEmpty(FunctionComplexityIssues, Walk(tree));
    FlatMapEmpty(NamingIssue, Walk(tree));
    FlatMapEmpty(DocumentationIssue, Walk(tree));
  }
}
