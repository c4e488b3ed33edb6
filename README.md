# Static analyzer of the PR review agent, in Dafny

This project models the static analyzer of the pull-request review agent
(`backend/analyzers/static_analysis.py`). `StaticAnalyzer.analyze_code` takes
Python source text and returns a report. It parses the text into a syntax
tree. It clears its issue accumulator and runs four detector passes over the
tree, each of which appends issues to the accumulator:

- complexity: function bodies over 50 statements, and more than 3 nesting statements;
- naming: `snake_case` functions and `PascalCase` classes;
- imports: more than 20 imports in the file;
- documentation: functions without a docstring.

It then computes line and definition metrics and assembles either a success
report or a syntax-error report.

Modules:

- `Wrappers` (`wrappers.dfy`): `Option` and `Result`.
- `Seqs` (`seqs.dfy`): `Count` (the `len([x for x in s if p(x)])` comprehension)
  and `FlatMap` (the concatenation that an appending loop builds), with the
  lemmas that relate them.
- `Syntax` (`syntax.dfy`): the syntax tree as `Node(kind, children)`.
  `Walk` is `ast.walk`: a queue, popped at the front and extended with the
  popped node's children, so nodes come out breadth first.
  `WalkCount` proves that this traversal meets every node exactly once. It
  does so by relating any count over the walk to a structural count
  (`TreeCount`) of the tree.
- `Text` (`text.dfy`): `str.split('\n')` and its inverse `join`, `str.strip()`,
  the two identifier patterns, and the decimal rendering of the nesting count
  in the issue message.
- `StaticAnalysis` (`static_analysis.dfy`): `CodeIssue`, each detector as a
  specification function over the walk, the `StaticAnalyzer` class, the
  metrics and the report. The class keeps the `issues` accumulator as a
  `seq<CodeIssue>` field. Each detector method says what it appends to that
  field. `AnalyzeCode` resets the field and ties the returned report to the
  pure function `Analysis`.
- `AnalysisProperties` (`properties.dfy`): what each detector's output means,
  stated with structural counts of the tree, and what the report's derived
  fields add up to.

The nesting counter is modelled as the code is written. In
`_get_nested_depth` the `elif` at line 160 tests the same condition as the
`if` at line 157, so the decrement never runs. `GetNestedDepth` keeps that
dead branch, and its loop invariant `maxDepth == currentDepth` shows the
counter only ever goes up. The proved result is that it returns the number of
`for`/`while`/`if`/`with`/`try` statements in the function's whole subtree.
That count includes the bodies of nested functions.

The docstring of `_get_nested_depth` (line 152) says it calculates the
"nesting depth of a function". `NestingCountBoundsDepth` compares the count
with that depth, the largest number of nesting statements on one path down
the tree: the count is never below it. `FlatIfsReportedAsNested` gives an
example where they differ: four sequential `if` statements have depth 1 but a
count of 4, and the analyzer reports that function with too many nested
levels.

The import check does not depend on definitions, so a file with no functions
or classes still gets the import issue when it has more than 20 imports.
`NoDefinitionsOnlyImportIssues` states that this is the only issue such a
file can get.

## Model

| member | source | states |
|---|---|---|
| `StaticAnalysis.StaticAnalyzer.constructor` | backend/analyzers/static_analysis.py:27-28 | a new analyzer starts with an empty issue list |
| `StaticAnalysis.StaticAnalyzer.AnalyzeCode` | backend/analyzers/static_analysis.py:30-79 | the accumulator is cleared first and afterwards holds exactly the four passes' issues in run order (empty on a parse failure), whatever it held before; the returned report is `Analysis` of the input |
| `StaticAnalysis.AnalyzeTwice` | backend/analyzers/static_analysis.py:41-51 | two runs of the same analyzer object on the same input return equal reports |
| `StaticAnalysis.Analysis` | backend/analyzers/static_analysis.py:56-79 | the report keeps the file name; it is a success exactly when parsing succeeded; on success its issues are the four passes' issues, its metrics are the computed ones, `total_issues` is their number and `high_severity_issues` the number with severity high; on failure `error` is `"Syntax error: "` plus the parser's description, with no issues, an empty metrics dictionary and `total_issues` 0 |
| `StaticAnalysis.StaticAnalyzer.CheckComplexity` | backend/analyzers/static_analysis.py:81-102 | appends, for the function definitions in walk order, the complexity issues of each function |
| `StaticAnalysis.StaticAnalyzer.CheckFunctionComplexity` | backend/analyzers/static_analysis.py:84-102 | for one function appends the long-body issue when the body has more than 50 statements, then the nesting issue when the nesting count exceeds 3 |
| `StaticAnalysis.StaticAnalyzer.GetNestedDepth` | backend/analyzers/static_analysis.py:151-163 | returns the number of nesting statements in the function's subtree, nested functions included, since the decrementing branch never runs |
| `StaticAnalysis.StaticAnalyzer.CheckNamingConventions` | backend/analyzers/static_analysis.py:104-123 | appends, in walk order, one naming issue per function whose name is not snake_case and per class whose name is not PascalCase |
| `StaticAnalysis.StaticAnalyzer.CheckImports` | backend/analyzers/static_analysis.py:125-136 | appends the single import issue exactly when the walk holds more than 20 import and from-import nodes |
| `StaticAnalysis.StaticAnalyzer.CheckFunctions` | backend/analyzers/static_analysis.py:138-149 | appends, in walk order, one documentation issue per function with no docstring or an empty one |
| `StaticAnalysis.CalculateMetrics` | backend/analyzers/static_analysis.py:165-179 | `total_lines` is the number of line breaks plus one; `non_empty_lines` is the number of pieces of `code.split('\n')` whose stripped form is non-empty, hence at most `total_lines`; the function and class counts are the numbers of such definitions anywhere in the tree; the average is the non-empty line count over `max(function_count, 1)` |
| `StaticAnalysis.AverageFunctionLength` | backend/analyzers/static_analysis.py:178 | the divisor `max(function_count, 1)` is never zero: the quotient times it gives the line count back, it is never negative, and with no functions it equals the non-empty line count |
| `StaticAnalysis.IsNonBlank` | backend/analyzers/static_analysis.py:168 | `line.strip()` is non-empty exactly when the line has a character that is not white space |
| `Syntax.Walk` | backend/analyzers/static_analysis.py:83 | the walk starts at the tree's root |
| `Syntax.WalkCount` | backend/analyzers/static_analysis.py:127-128 | counting any kind of node over the walk gives the number of such nodes in the tree: the walk meets every node exactly once |
| `Syntax.WalkLength` | backend/analyzers/static_analysis.py:170-171 | the walk is as long as the tree is large |
| `Text.Split` | backend/analyzers/static_analysis.py:167 | `code.split('\n')` has one piece more than the code has line breaks, and no piece holds a line break |
| `Text.JoinSplit` | backend/analyzers/static_analysis.py:167 | joining the pieces with line breaks gives the code back |
| `Text.SplitJoin` | backend/analyzers/static_analysis.py:167 | splitting a join of pieces without line breaks gives the pieces back |
| `Text.StripEmptyIff` | backend/analyzers/static_analysis.py:168 | the stripped line is empty exactly when every character is white space |
| `Text.NatToString` | backend/analyzers/static_analysis.py:100 | the nesting count is written as a non-empty string of decimal digits in canonical form: `"0"` exactly for zero, and no leading zero otherwise |
| `Text.NatToStringValue` | backend/analyzers/static_analysis.py:100 | reading those digits back gives the count |
| `AnalysisProperties.ComplexityIssueMember` | backend/analyzers/static_analysis.py:83-102 | an issue is a complexity issue exactly when it is the long-body issue of a function with over 50 body statements or the nesting issue of a function with over 3 nesting statements |
| `AnalysisProperties.LongFunctionIssueCount` | backend/analyzers/static_analysis.py:84-92 | there are as many medium complexity issues as functions with more than 50 body statements (so 50 statements gives none and each long function exactly one) |
| `AnalysisProperties.NestedLevelsIssueCount` | backend/analyzers/static_analysis.py:95-102 | there are as many high complexity issues as functions with more than 3 nesting statements |
| `AnalysisProperties.NestingCountBoundsDepth` | backend/analyzers/static_analysis.py:151-163 | the count the analyzer uses is never below the true maximum nesting depth |
| `AnalysisProperties.FlatIfsReportedAsNested` | backend/analyzers/static_analysis.py:151-163 | a function of four sequential `if` statements has depth 1 and count 4, and gets the "too many nested levels (4)" issue |
| `AnalysisProperties.NamingIssueMember` | backend/analyzers/static_analysis.py:104-123 | an issue is a naming issue exactly when it is the one issue of a badly named function or class of the tree |
| `AnalysisProperties.NamingIssueOfNode` | backend/analyzers/static_analysis.py:106-123 | a node gets at most one naming issue, a low one at its own line, with the function or the class message |
| `AnalysisProperties.NamingIssueCount` | backend/analyzers/static_analysis.py:104-123 | there are as many naming issues as badly named functions and classes in the tree |
| `AnalysisProperties.BadNamesModuleWalk` | backend/analyzers/static_analysis.py:106 | the walk of a module with one function and one class visits the module, both definitions, then their bodies |
| `AnalysisProperties.BadNamesExample` | backend/analyzers/static_analysis.py:104-123 | a function `BadName` on line 1 and a class `bad_name` on line 4 give exactly two low naming issues, at lines 1 and 4 |
| `AnalysisProperties.ImportIssueIffOverLimit` | backend/analyzers/static_analysis.py:125-136 | the import pass emits one medium issue at line 1 when the tree holds more than 20 import and from-import statements, and nothing otherwise (20 gives none, 21 gives one) |
| `AnalysisProperties.DocumentationIssueMember` | backend/analyzers/static_analysis.py:138-149 | an issue is a documentation issue exactly when it is the low issue at the line of a function lacking a docstring |
| `AnalysisProperties.DocumentationIssueCount` | backend/analyzers/static_analysis.py:138-149 | there are as many documentation issues as functions with no docstring or an empty one |
| `AnalysisProperties.HighSeverityIssuesAreNestedFunctions` | backend/analyzers/static_analysis.py:69 | the issue list holds as many high-severity issues as there are functions with more than 3 nesting statements, so that is `high_severity_issues` |
| `AnalysisProperties.TotalIssuesBreakdown` | backend/analyzers/static_analysis.py:68 | the issue list's length, `total_issues`, is long functions plus over-nested functions plus badly named definitions plus one if imports exceed 20 plus functions lacking a docstring |
| `AnalysisProperties.NoDefinitionsOnlyImportIssues` | backend/analyzers/static_analysis.py:48-51 | without functions and classes the only issue the passes can produce is the import issue |

## Left out

- `ast.parse` (line 45) is a foreign parser. Its outcome is an input to `AnalyzeCode` and `Analysis`: a tree, or the description that `str(e)` would give for the `SyntaxError`. The idempotence property therefore assumes the parser returns the same outcome for the same text.
- Exceptions from `ast.parse` other than `SyntaxError` are not modelled. Line 72 catches only `SyntaxError`, so a `ValueError` (source text with a null byte, on Python 3.11 and earlier), a `RecursionError` or a `MemoryError` propagates out of `analyze_code` instead of producing a report.
- The tree keeps only what the detectors inspect. A function's children are exactly its body statements. Argument, decorator, annotation, base-class and other expression subtrees are left out: they hold no statement, so leaving them out does not change the order in which the walk meets the nodes the detectors test. `AsyncFunctionDef`, `AsyncFor`, `AsyncWith`, exception handlers and every other node type are `Other`, as the `isinstance` checks treat them. Import nodes carry no line number because the code never reads one.
- `re.match` (lines 108 and 117) is replaced by character-class predicates over the whole name. This is exact for identifiers, which hold no newline. Python's `$` would also accept a name ending in one newline.
- `ast.get_docstring` (line 143) also cleans the docstring's indentation. The model takes the raw docstring literal as an `Option<string>` input and tests it for emptiness, without the cleaning. Cleaning can empty a non-empty literal: a docstring of a single line of spaces becomes the empty string, which the code treats as missing and the model treats as present. A literal that the cleaning does not empty, such as a line break followed by spaces, is present in both.
- `average_function_length` (line 178) is an exact `real` quotient, not a float with rounding.
- The report's `issues` entries are dictionaries in the source. Here they are `CodeIssue` values with the same four fields, and issue types and severities are enumerations instead of strings. The metrics dictionary of a success report is a `Metrics` record. The empty `{}` of a failure report is the empty map `emptyMetrics`.
- The default `filename="unknown"` (line 30) is not modelled as a default: the model always takes a file name, and omitting the argument in the source is the same as passing `"unknown"`.
- `backend/analyzers/github_client.py` (HTTP calls to the repository host), `backend/simple_pr_app.py` (web routing with a fixed placeholder review), `backend/analyzers/ai_feedback.py` (canned text) and `main.py` (server start-up) are not part of this model. None of them contains analysis logic.
