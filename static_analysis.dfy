/** The static analyzer: the issue record, the four detector passes, the
    nesting counter, the metrics and the report, and the `StaticAnalyzer`
    object whose `issues` list the detectors append to. */
module StaticAnalysis {
  import opened Wrappers
  import opened Seqs
  import opened Syntax
  import opened Text

  datatype IssueType = Complexity | Naming | Imports | Documentation

  datatype Severity = Low | Medium | High

  /** One finding; it is also what each entry of the report's `issues` list
      holds under the keys `line`, `type`, `message` and `severity`. */
  datatype CodeIssue = CodeIssue(lineNumber: int, issueType: IssueType, message: string, severity: Severity)

  /** The fixed thresholds of the detectors. */
  const MaxBodyStatements := 50
  const MaxNestingCount := 3
  const MaxImports := 20

  const LongFunctionMessage := "Function is too long (>50 lines)"
  const FunctionNameMessage := "Function name should be lowercase with underscores"
  const ClassNameMessage := "Class name should be PascalCase"
  const TooManyImportsMessage := "Too many imports (>20)"
  const MissingDocstringMessage := "Function missing docstring"

  function NestedLevelsMessage(depth: nat): string
  {
    "Function has too many nested levels (" + NatToString(depth) + ")"
  }

  predicate IsFunctionDef(n: Node) { n.kind.FunctionDef? }
  predicate IsClassDef(n: Node) { n.kind.ClassDef? }
  predicate IsImport(n: Node) { n.kind.Import? }
  predicate IsImportFrom(n: Node) { n.kind.ImportFrom? }

  /** `isinstance(child, (ast.For, ast.While, ast.If, ast.With, ast.Try))`. */
  predicate IsNesting(n: Node) { n.kind.Compound? }

  /** What `_get_nested_depth` returns: the number of nesting statements
      anywhere in the function's subtree, nested functions included. */
  function NestingCount(n: Node): nat
  {
    TreeCount(IsNesting, n)
  }

  // ---------------------------------------------------------------------
  // Complexity detector

  predicate IsLongFunction(n: Node)
  {
    n.kind.FunctionDef? && |n.children| > MaxBodyStatements
  }

  predicate IsDeeplyNestedFunction(n: Node)
  {
    n.kind.FunctionDef? && NestingCount(n) > MaxNestingCount
  }

  function LongFunctionIssue(n: Node): CodeIssue
    requires n.kind.FunctionDef?
  {
    CodeIssue(n.kind.line, Complexity, LongFunctionMessage, Medium)
  }

  function NestedLevelsIssue(n: Node): CodeIssue
    requires n.kind.FunctionDef?
  {
    CodeIssue(n.kind.line, Complexity, NestedLevelsMessage(NestingCount(n)), High)
  }

  /** The issues one visited node contributes to the complexity pass. */
  function FunctionComplexityIssues(n: Node): seq<CodeIssue>
  {
    if n.kind.FunctionDef? then
      (if |n.children| > MaxBodyStatements then [LongFunctionIssue(n)] else [])
      + (if NestingCount(n) > MaxNestingCount then [NestedLevelsIssue(n)] else [])
    else []
  }

  function ComplexityIssues(tree: Node): seq<CodeIssue>
  {
    FlatMap(FunctionComplexityIssues, Walk(tree))
  }

  // ---------------------------------------------------------------------
  // Naming detector

  predicate IsBadlyNamed(n: Node)
  {
    match n.kind
    case FunctionDef(name, _, _) => !IsSnakeCase(name)
    case ClassDef(name, _) => !IsPascalCase(name)
    case _ => false
  }

  function NamingIssue(n: Node): seq<CodeIssue>
  {
    match n.kind
    case FunctionDef(name, line, _) =>
      if !IsSnakeCase(name) then [CodeIssue(line, Naming, FunctionNameMessage, Low)] else []
    case ClassDef(name, line) =>
      if !IsPascalCase(name) then [CodeIssue(line, Naming, ClassNameMessage, Low)] else []
    case _ => []
  }

  function NamingIssues(tree: Node): seq<CodeIssue>
  {
    FlatMap(NamingIssue, Walk(tree))
  }

  // ---------------------------------------------------------------------
  // Import detector

  /** `len(imports) + len(import_froms)`, both collected over the walk. */
  function ImportCount(tree: Node): nat
  {
    Count(IsImport, Walk(tree)) + Count(IsImportFrom, Walk(tree))
  }

  function ImportIssues(tree: Node): seq<CodeIssue>
  {
    if ImportCount(tree) > MaxImports then [CodeIssue(1, Imports, TooManyImportsMessage, Medium)] else []
  }

  // ---------------------------------------------------------------------
  // Documentation detector

  /** `not ast.get_docstring(node)`: no docstring, or an empty one. */
  predicate LacksDocstring(n: Node)
  {
    n.kind.FunctionDef? && (n.kind.docstring.None? || n.kind.docstring.value == [])
  }

  function DocumentationIssue(n: Node): seq<CodeIssue>
  {
    if LacksDocstring(n) then [CodeIssue(n.kind.line, Documentation, MissingDocstringMessage, Low)] else []
  }

  function DocumentationIssues(tree: Node): seq<CodeIssue>
  {
    FlatMap(DocumentationIssue, Walk(tree))
  }

  /** The issue list of one run: complexity, naming, import and documentation
      issues, in the order the passes run. */
  function AllIssues(tree: Node): seq<CodeIssue>
  {
    ComplexityIssues(tree) + NamingIssues(tree) + ImportIssues(tree) + DocumentationIssues(tree)
  }

  // ---------------------------------------------------------------------
  // Metrics

  /** The metrics dictionary; `averageFunctionLength` is the exact quotient
      that the source computes in floating point. */
  datatype Metrics = Metrics(
    totalLines: nat,
    nonEmptyLines: nat,
    functionCount: nat,
    classCount: nat,
    averageFunctionLength: real)

  /** `line.strip()` is truthy: the line holds a character that is not white space. */
  predicate IsNonBlank(line: string)
    ensures IsNonBlank(line) <==> exists i :: 0 <= i < |line| && !IsSpace(line[i])
  {
    StripEmptyIff(line);
    Strip(line) != []
  }

  function Max(a: int, b: int): int { if a >= b then a else b }

  function CalculateMetrics(code: string, tree: Node): (m: Metrics)
    ensures m.totalLines == CountChar('\n', code) + 1
    ensures m.nonEmptyLines == Count(IsNonBlank, Split(code, '\n'))
    ensures m.nonEmptyLines <= m.totalLines
    ensures m.functionCount == TreeCount(IsFunctionDef, tree)
    ensures m.classCount == TreeCount(IsClassDef, tree)
    ensures m.averageFunctionLength == AverageFunctionLength(m.nonEmptyLines, m.functionCount)
  {
    var lines := Split(code, '\n');
    var nonEmpty := Count(IsNonBlank, lines);
    var functions := Count(IsFunctionDef, Walk(tree));
    var classes := Count(IsClassDef, Walk(tree));
    WalkCount(IsFunctionDef, tree);
    WalkCount(IsClassDef, tree);
    Metrics(|lines|, nonEmpty, functions, classes, AverageFunctionLength(nonEmpty, functions))
  }

  /** `non_empty_lines / max(function_count, 1)`: the divisor is at least 1,
      so the quotient always exists, times the divisor it gives the line
      count back, and with no functions it is the line count itself. */
  function AverageFunctionLength(lines: nat, functions: nat): (average: real)
    ensures average * (Max(functions, 1) as real) == lines as real
    ensures functions == 0 ==> average == lines as real
    ensures average >= 0.0
  {
    var divisor := Max(functions, 1) as real;
    RealQuotient(lines as real, divisor);
    (lines as real) / divisor
  }

  lemma RealQuotient(a: real, b: real)
    requires b > 0.0
    ensures (a / b) * b == a
    ensures a >= 0.0 ==> a / b >= 0.0
  {
  }

  // ---------------------------------------------------------------------
  // Report

  predicate IsHigh(i: CodeIssue) { i.severity == High }

  /** The dictionary `analyze_code` returns.  Both shapes have a `metrics`
      entry: the computed metrics on success, the empty dictionary
      (`emptyMetrics`, keyed by metric name) on a syntax failure, which also has an `error` entry, an empty
      issue list and no `high_severity_issues` entry. */
  datatype Report =
    | Success(filename: string, issues: seq<CodeIssue>, metrics: Metrics, totalIssues: nat, highSeverityIssues: nat)
    | SyntaxFailure(filename: string, error: string, issues: seq<CodeIssue>, emptyMetrics: map<string, real>, totalIssues: nat)

  /** The report for a source text whose parse outcome is `parsed`. */
  function Analysis(code: string, filename: string, parsed: Result<Node, string>): (r: Report)
    ensures r.filename == filename
    ensures r.Success? <==> parsed.Ok?
    ensures r.Success? ==> r.issues == AllIssues(parsed.value)
    ensures r.Success? ==> r.metrics == CalculateMetrics(code, parsed.value)
    ensures r.Success? ==> r.totalIssues == |r.issues| && r.highSeverityIssues == Count(IsHigh, r.issues)
    ensures r.SyntaxFailure? ==>
      r.error == "Syntax error: " + parsed.error && r.issues == [] && r.emptyMetrics == map[] && r.totalIssues == 0
  {
    match parsed
    case Ok(tree) =>
      var found := AllIssues(tree);
      Success(filename, found, CalculateMetrics(code, tree), |found|, Count(IsHigh, found))
    case Err(description) =>
      SyntaxFailure(filename, "Syntax error: " + description, [], map[], 0)
  }

  // ---------------------------------------------------------------------
  // The analyzer object

  class StaticAnalyzer {
    /** The accumulator the detector passes append to. */
    var issues: seq<CodeIssue>

    constructor ()
      ensures issues == []
    {
      issues := [];
    }

    /** Clears the accumulator, runs the four passes on a parsed tree and
        assembles the report; a parse failure short-circuits. */
    method AnalyzeCode(code: string, filename: string, parsed: Result<Node, string>) returns (report: Report)
      modifies this
      ensures issues == (if parsed.Ok? then AllIssues(parsed.value) else [])
      ensures report == Analysis(code, filename, parsed)
    {
      issues := [];
      match parsed
      case Ok(tree) =>
        CheckComplexity(tree);
        CheckNamingConventions(tree);
        CheckImports(tree);
        CheckFunctions(tree);
        assert issues == AllIssues(tree);
        var metrics := CalculateMetrics(code, tree);
        report := Success(filename, issues, metrics, |issues|, Count(IsHigh, issues));
      case Err(description) =>
        report := SyntaxFailure(filename, "Syntax error: " + description, [], map[], 0);
    }

    method CheckComplexity(tree: Node)
      modifies this
      ensures issues == old(issues) + ComplexityIssues(tree)
    {
      var nodes := Walk(tree);
      for i := 0 to |nodes|
        invariant issues == old(issues) + FlatMap(FunctionComplexityIssues, nodes[..i])
      {
        var node := nodes[i];
        if node.kind.FunctionDef? {
          CheckFunctionComplexity(node);
        }
        FlatMapPrefix(FunctionComplexityIssues, nodes, i);
      }
      assert nodes[..|nodes|] == nodes;
    }

    /** The body of the complexity loop for one `FunctionDef`: the long-body
        check, then the nesting check. */
    method CheckFunctionComplexity(node: Node)
      requires node.kind.FunctionDef?
      modifies this
      ensures issues == old(issues) + FunctionComplexityIssues(node)
    {
      if |node.children| > MaxBodyStatements {
        issues := issues + [CodeIssue(node.kind.line, Complexity, LongFunctionMessage, Medium)];
      }
      var nestedDepth := GetNestedDepth(node);
      if nestedDepth > MaxNestingCount {
        issues := issues + [CodeIssue(node.kind.line, Complexity, NestedLevelsMessage(nestedDepth), High)];
      }
    }

    method CheckNamingConventions(tree: Node)
      modifies this
      ensures issues == old(issues) + NamingIssues(tree)
    {
      var nodes := Walk(tree);
      for i := 0 to |nodes|
        invariant issues == old(issues) + FlatMap(NamingIssue, nodes[..i])
      {
        var node := nodes[i];
        if node.kind.FunctionDef? {
          if !IsSnakeCase(node.kind.name) {
            issues := issues + [CodeIssue(node.kind.line, Naming, FunctionNameMessage, Low)];
          }
        } else if node.kind.ClassDef? {
          if !IsPascalCase(node.kind.name) {
            issues := issues + [CodeIssue(node.kind.line, Naming, ClassNameMessage, Low)];
          }
        }
        FlatMapPrefix(NamingIssue, nodes, i);
      }
      assert nodes[..|nodes|] == nodes;
    }

    method CheckImports(tree: Node)
      modifies this
      ensures issues == old(issues) + ImportIssues(tree)
    {
      var imports := Count(IsImport, Walk(tree));
      var importFroms := Count(IsImportFrom, Walk(tree));
      if imports + importFroms > MaxImports {
        issues := issues + [CodeIssue(1, Imports, TooManyImportsMessage, Medium)];
      }
    }

    method CheckFunctions(tree: Node)
      modifies this
      ensures issues == old(issues) + DocumentationIssues(tree)
    {
      var nodes := Walk(tree);
      for i := 0 to |nodes|
        invariant issues == old(issues) + FlatMap(DocumentationIssue, nodes[..i])
      {
        var node := nodes[i];
        if node.kind.FunctionDef? {
          if node.kind.docstring.None? || node.kind.docstring.value == [] {
            issues := issues + [CodeIssue(node.kind.line, Documentation, MissingDocstringMessage, Low)];
          }
        }
        FlatMapPrefix(DocumentationIssue, nodes, i);
      }
      assert nodes[..|nodes|] == nodes;
    }

    /** The depth counter of the source: it is raised on every nesting
        statement the walk meets, and the branch that would lower it tests
        the same condition as the branch before it, so it never runs.  The
        result is therefore the number of nesting statements in the subtree. */
    method GetNestedDepth(node: Node) returns (depth: int)
      ensures depth == NestingCount(node)
    {
      var maxDepth := 0;
      var currentDepth := 0;
      var nodes := Walk(node);
      for i := 0 to |nodes|
        invariant currentDepth == Count(IsNesting, nodes[..i])
        invariant maxDepth == currentDepth
      {
        var child := nodes[i];
        if IsNesting(child) {
          currentDepth := currentDepth + 1;
          maxDepth := Max(maxDepth, currentDepth);
        } else if IsNesting(child) {
          currentDepth := currentDepth - 1;
        }
        CountPrefix(IsNesting, nodes, i);
      }
      assert nodes[..|nodes|] == nodes;
      WalkCount(IsNesting, node);
      depth := maxDepth;
    }
  }

  /** Two runs of one analyzer on the same input give the same report, and
      the second run leaves no trace of the first in the accumulator. */
  method AnalyzeTwice(code: string, filename: string, parsed: Result<Node, string>)
    returns (first: Report, second: Report)
    ensures first == second
  {
    var analyzer := new StaticAnalyzer();
    first := analyzer.AnalyzeCode(code, filename, parsed);
    second := analyzer.AnalyzeCode(code, filename, parsed);
  }
}
