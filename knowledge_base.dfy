/** The two fixed knowledge reports shown on every page: a title line followed by
    short facts, joined with newlines. */
module KnowledgeBase {
  import opened Text

  /** A knowledge report: its title and its facts, in display order. */
  datatype Report = Report(title: string, facts: seq<string>)

  function Lines(report: Report): (lines: seq<string>)
    ensures |lines| == 1 + |report.facts| && lines[0] == report.title
  {
    [report.title] + report.facts
  }

  /** The report as displayed: its lines joined by newlines. */
  function Render(report: Report): string {
    Join(Lines(report), "\n")
  }

  /** No line of the report contains a newline of its own. */
  predicate SingleLineEntries(report: Report) {
    NoLineHas(Lines(report), '\n')
  }

  /** A rendered report splits back into its lines, holds one newline per fact and begins
      with its title. */
  lemma RenderShape(report: Report)
    requires SingleLineEntries(report)
    ensures Split(Render(report), '\n') == Lines(report)
    ensures multiset(Render(report))['\n'] == |report.facts|
    ensures StartsWith(Render(report), report.title)
  {
    SplitJoin(Lines(report), '\n');
    JoinCountsSeparators(Lines(report), '\n');
    if report.facts == [] {
      assert Render(report) == report.title;
    } else {
      JoinStartsWithFirst(Lines(report), "\n");
      assert Render(report)[..|report.title|] == (report.title + "\n")[..|report.title|];
    }
  }

  // The report lines: each constant is exactly one line the report appends. Long lines
  // are written as concatenations of shorter pieces so that the verifier can inspect
  // every character.

  const CONFUSION_MATRIX_TITLE: string := "**General Knowledge on " + "Confusion Matrices:**"
  const CONFUSION_MATRIX_DIMENSIONS: string :=
    "- A confusion matrix typically " + "has dimensions corresponding " + "to the number of classes."
  const CONFUSION_MATRIX_CELLS: string :=
    "- For binary: TP, FP, FN, TN " + "represent counts of true/false " + "positives/negatives."
  const CONFUSION_MATRIX_AXES: string := "- Axes represent predicted " + "vs. actual classes."
  const CONFUSION_MATRIX_ISSUES: string :=
    "- Issues: Missing cells, " + "inconsistent labels, negative values."

  const FORMULA_TITLE: string := "**General Knowledge on Formulas:**"
  const FORMULA_RELATIONSHIPS: string :=
    "- Formulas show relationships " + "between variables using math symbols."
  const FORMULA_ELEMENTS: string := "- Elements: variables, constants, " + "operators, functions."
  const FORMULA_ISSUES: string :=
    "- Issues: Syntax errors, " + "undefined variables, " + "nonsensical operations."

  const CONFUSION_MATRIX_KNOWLEDGE: Report := Report(
    CONFUSION_MATRIX_TITLE,
    [CONFUSION_MATRIX_DIMENSIONS, CONFUSION_MATRIX_CELLS, CONFUSION_MATRIX_AXES, CONFUSION_MATRIX_ISSUES])

  const FORMULA_KNOWLEDGE: Report := Report(
    FORMULA_TITLE,
    [FORMULA_RELATIONSHIPS, FORMULA_ELEMENTS, FORMULA_ISSUES])

  // Each line is free of newlines, checked one line at a time.

  lemma ConfusionMatrixTitleIsOneLine()
    ensures '\n' !in CONFUSION_MATRIX_TITLE
  {
  }

  lemma ConfusionMatrixDimensionsIsOneLine()
    ensures '\n' !in CONFUSION_MATRIX_DIMENSIONS
  {
  }

  lemma ConfusionMatrixCellsIsOneLine()
    ensures '\n' !in CONFUSION_MATRIX_CELLS
  {
  }

  lemma ConfusionMatrixAxesIsOneLine()
    ensures '\n' !in CONFUSION_MATRIX_AXES
  {
  }

  lemma ConfusionMatrixIssuesIsOneLine()
    ensures '\n' !in CONFUSION_MATRIX_ISSUES
  {
  }

  lemma FormulaTitleIsOneLine()
    ensures '\n' !in FORMULA_TITLE
  {
  }

  lemma FormulaRelationshipsIsOneLine()
    ensures '\n' !in FORMULA_RELATIONSHIPS
  {
  }

  lemma FormulaElementsIsOneLine()
    ensures '\n' !in FORMULA_ELEMENTS
  {
  }

  lemma FormulaIssuesIsOneLine()
    ensures '\n' !in FORMULA_ISSUES
  {
  }

  lemma ConfusionMatrixLinesAreSingleLines()
    ensures SingleLineEntries(CONFUSION_MATRIX_KNOWLEDGE)
  {
    ConfusionMatrixTitleIsOneLine();
    ConfusionMatrixDimensionsIsOneLine();
    ConfusionMatrixCellsIsOneLine();
    ConfusionMatrixAxesIsOneLine();
    ConfusionMatrixIssuesIsOneLine();
  }

  lemma FormulaLinesAreSingleLines()
    ensures SingleLineEntries(FORMULA_KNOWLEDGE)
  {
    FormulaTitleIsOneLine();
    FormulaRelationshipsIsOneLine();
    FormulaElementsIsOneLine();
    FormulaIssuesIsOneLine();
  }

  /** The rendered report has 5 lines, title first, and 4 newlines. */
  lemma ConfusionMatrixReportShape(text: string)
    requires text == Render(CONFUSION_MATRIX_KNOWLEDGE)
    ensures Split(text, '\n') == Lines(CONFUSION_MATRIX_KNOWLEDGE)
    ensures |Split(text, '\n')| == 5 && multiset(text)['\n'] == 4
    ensures StartsWith(text, CONFUSION_MATRIX_TITLE)
  {
    ConfusionMatrixLinesAreSingleLines();
    RenderShape(CONFUSION_MATRIX_KNOWLEDGE);
  }

  /** Builds the confusion-matrix report line by line. */
  method AnalyzeConfusionMatrixKnowledge() returns (text: string)
    ensures text == Render(CONFUSION_MATRIX_KNOWLEDGE)
  {
    var report: seq<string> := [];
    report := report + [CONFUSION_MATRIX_TITLE];
    report := report + [CONFUSION_MATRIX_DIMENSIONS];
    report := report + [CONFUSION_MATRIX_CELLS];
    report := report + [CONFUSION_MATRIX_AXES];
    report := report + [CONFUSION_MATRIX_ISSUES];
    assert report == Lines(CONFUSION_MATRIX_KNOWLEDGE);
    text := Join(report, "\n");
  }

  /** The rendered report has 4 lines, title first, and 3 newlines. */
  lemma FormulaReportShape(text: string)
    requires text == Render(FORMULA_KNOWLEDGE)
    ensures Split(text, '\n') == Lines(FORMULA_KNOWLEDGE)
    ensures |Split(text, '\n')| == 4 && multiset(text)['\n'] == 3
    ensures StartsWith(text, FORMULA_TITLE)
  {
    FormulaLinesAreSingleLines();
    RenderShape(FORMULA_KNOWLEDGE);
  }

  /** Builds the formula report line by line. */
  method AnalyzeFormulasKnowledge() returns (text: string)
    ensures text == Render(FORMULA_KNOWLEDGE)
  {
    var report: seq<string> := [];
    report := report + [FORMULA_TITLE];
    report := report + [FORMULA_RELATIONSHIPS];
    report := report + [FORMULA_ELEMENTS];
    report := report + [FORMULA_ISSUES];
    assert report == Lines(FORMULA_KNOWLEDGE);
    text := Join(report, "\n");
  }
}
