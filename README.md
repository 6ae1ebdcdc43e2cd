# Image analysis page: a verified model of its core

The application is a single-page Streamlit tool, `matrix.py`. A user uploads an
image or a PDF. The page runs OCR on the image, or on the first rendered page of
the PDF. It always shows two fixed "general knowledge" reports: one about
confusion matrices and one about formulas. When the user presses **Ask**, the
page answers a free-text question with one of seven canned replies. The reply is
chosen by an ordered cascade of case-insensitive keyword tests.

This project models that behaviour in Dafny and proves what the page promises:

- `text.dfy` (module `Text`) holds the string operations the page relies on:
  - Python's ASCII `lower()`, `startswith` and `in`;
  - `"\n".join`, with a `split` that inverts it.
- `query_matcher.dfy` (module `QueryMatcher`) holds the question handler:
  - the if/elif cascade, written once as `Classify`;
  - the same cascade as a declarative rule table (`RULES`, `FirstMatch`);
  - a proof that the two agree, and the cascade's properties: totality,
    first match wins, case-insensitivity, the default for blank queries,
    and shadowing.
- `knowledge_base.dfy` (module `KnowledgeBase`) holds the two report builders.
  It proves the exact shape of each report: its lines, its newlines and its
  title.
- `ingestion.dfy` (module `Ingestion`) holds the upload handler:
  - MIME dispatch;
  - first-page selection for PDFs;
  - the three error messages;
  - the imperative upload branch, proved against its value-level
    specification `Extract`.
- `app.dfy` (module `App`) holds one run of the page:
  - the Ask handler;
  - the extracted-text fallback;
  - `Run`, which ties ingestion, the reports and the answer together.
  Widgets are replaced by their values: the upload, the query and whether
  Ask was pressed are inputs, and what the page writes is the output.
- `wrappers.dfy` (module `Wrappers`) holds an `Option` type.

The foreign libraries come in as function parameters:

- `decode` stands for `Image.open`;
- `render` stands for `convert_from_bytes`, whose result is either the list of
  pages or the exception it raised;
- `ocr` stands for grayscale conversion followed by `pytesseract.image_to_string`.

Two behaviours of the code are easy to miss, and the model keeps them:

- Any MIME type that merely starts with `image` takes the image branch, not
  only `image/png` or `image/jpeg`.
- The extracted-text area prints the fallback sentence when the text is empty.
  It also prints that sentence, unchanged, when OCR happens to return exactly
  that sentence (`App.FallbackShownWhenEmpty`).

## Model

| member | source | states |
|---|---|---|
| Text.LowerConcat | matrix.py:80 | lower-casing a concatenation is the concatenation of the lower-cased parts |
| Text.Lower | matrix.py:80 | `query.lower()` on ASCII: same length, each character folded to lower case, no upper-case letter left |
| Text.StartsWith | matrix.py:57 | `s.startswith(p)`: p is no longer than s and equals the first len(p) characters of s |
| Text.Contains | matrix.py:80-90 | `sub in s`: sub is a prefix of s or occurs in s with its first character removed (tied to the slice definition by `Text.ContainsIffOccurs`) |
| Text.LowerIdempotent | matrix.py:80-90 | lower-casing an already lower-cased query changes nothing |
| Text.ContainsIffOccurs | matrix.py:80-90 | the `in` test holds exactly when the keyword occurs as a slice at some position of the query |
| Text.MissingCharNotContained | matrix.py:80-90 | a query lacking one character of a keyword cannot contain that keyword |
| Text.Join | matrix.py:35 | `sep.join(lines)`: empty for no lines, the single line for one, otherwise the first line, the separator and the join of the rest |
| Text.SplitJoin | matrix.py:35 | splitting a newline join of newline-free lines gives back exactly those lines |
| Text.JoinCountsSeparators | matrix.py:35 | a join of n newline-free lines contains exactly n - 1 newlines |
| Text.JoinStartsWithFirst | matrix.py:35 | a join of two or more lines starts with the first line and the separator |
| QueryMatcher.Classify | matrix.py:80-93 | the if/elif cascade on the lower-cased query: the six keyword conditions in source order, each selecting its topic, and the default otherwise |
| QueryMatcher.ReplyText | matrix.py:81-93 | the reply text each branch appends, one literal per topic, identical to the source's |
| QueryMatcher.Reply | matrix.py:80-93 | the text appended to the prefix is the reply of the topic the cascade selects |
| QueryMatcher.TableTopic | matrix.py:80-93 | the topic of the first rule of `RULES` (the six conditions as keyword lists, then a catch-all) that fires on the lower-cased query |
| QueryMatcher.Answer | matrix.py:78-93 | every answer starts with the `**Knowledge-Based Answer:** ` prefix |
| QueryMatcher.FirstMatch | matrix.py:80-93 | for a table ending in a catch-all, the result is an index of the table whose rule fires, and no earlier rule fires |
| QueryMatcher.ContainsAllEach | matrix.py:82-90 | a rule's conjunction holds exactly when each of its keywords is contained in the query |
| QueryMatcher.FiresSpelledOut | matrix.py:80-93 | the seven rules of the table are the cascade's seven conditions, the last one always firing |
| QueryMatcher.CascadeAgreesWithTable | matrix.py:80-93 | the if/elif cascade picks the topic of the first firing rule of the table, for every query |
| QueryMatcher.RuleTopicsDistinct | matrix.py:80-93 | each of the seven branches leads to its own topic |
| QueryMatcher.ClassifyIsFirstFiringRule | matrix.py:80-93 | first match wins: the query gets branch i's topic if and only if condition i holds and no earlier condition does |
| QueryMatcher.ReplyTextInjective | matrix.py:81-93 | distinct branches append distinct reply texts |
| QueryMatcher.AnswerIdentifiesTopic | matrix.py:78-93 | two queries get the same answer if and only if they fall in the same branch, so every answer is one of exactly seven strings |
| QueryMatcher.F1ScoreWins | matrix.py:80-81 | a query mentioning "f1 score" in any letter case gets the F1 reply whatever else it mentions |
| QueryMatcher.AnswerIgnoresCase | matrix.py:80-93 | the branch and the answer depend only on the lower-cased query |
| QueryMatcher.UpperCaseF1Example | matrix.py:80-81 | "F1 SCORE" and "f1 score" both take the F1 branch |
| QueryMatcher.AccuracyQuestionKeywords | matrix.py:80-82 | the lower-cased accuracy question contains "accuracy" and "confusion matrix" and, having no '1', not "f1 score" |
| QueryMatcher.AccuracyQuestionExample | matrix.py:82-83 | "What is accuracy in a confusion matrix?" takes the accuracy branch, not the default, and gets the prefixed accuracy reply |
| QueryMatcher.NoKeywordGetsDefault | matrix.py:92-93 | a query containing none of the nine trigger keywords gets the default branch |
| QueryMatcher.BlankQueryGetsDefault | matrix.py:92-93 | an empty or all-space query gets the default answer, prefix included |
| QueryMatcher.EmptyQueryGetsDefault | matrix.py:92-93 | the empty query gets the default answer, prefix included |
| QueryMatcher.UndefinedVariableNeedsAllThree | matrix.py:90-91 | the undefined-variable answer implies "variable", "defined" and "formula" all occur in the lower-cased query |
| QueryMatcher.SyntaxShadowsUndefinedVariable | matrix.py:88-91 | a query with both "formula" and "syntax" never gets the undefined-variable answer |
| KnowledgeBase.Lines | matrix.py:29-34 | a report has its title as line 0, followed by one line per fact |
| KnowledgeBase.Render | matrix.py:35 | a report as displayed is its lines joined by `"\n"` |
| KnowledgeBase.RenderShape | matrix.py:35 | a rendered report of newline-free lines splits back into its lines, has one newline per fact and starts with its title |
| KnowledgeBase.ConfusionMatrixLinesAreSingleLines | matrix.py:30-34 | none of the five confusion-matrix lines contains a newline |
| KnowledgeBase.FormulaLinesAreSingleLines | matrix.py:39-42 | none of the four formula lines contains a newline |
| KnowledgeBase.ConfusionMatrixReportShape | matrix.py:28-35 | the confusion-matrix report splits into exactly its 5 lines, holds 4 newlines and starts with its title |
| KnowledgeBase.AnalyzeConfusionMatrixKnowledge | matrix.py:28-35 | appending the five fixed lines and joining them yields the rendered confusion-matrix report |
| KnowledgeBase.FormulaReportShape | matrix.py:37-43 | the formula report splits into exactly its 4 lines, holds 3 newlines and starts with its title |
| KnowledgeBase.AnalyzeFormulasKnowledge | matrix.py:37-43 | appending the four fixed lines and joining them yields the rendered formula report |
| Ingestion.Dispatch | matrix.py:55-68 | image branch if and only if the type starts with "image"; PDF branch if and only if it is exactly "application/pdf"; unsupported otherwise |
| Ingestion.AcceptedTypesDispatch | matrix.py:48-62 | the types of the accepted extensions, image/png, image/jpeg and application/pdf, reach their branches |
| Ingestion.DispatchIsCaseSensitive | matrix.py:57-62 | "Image/png" and "APPLICATION/PDF" are unsupported |
| Ingestion.FirstPage | matrix.py:19-23 | a page is selected if and only if the rendering is non-empty, and it is page 0 |
| Ingestion.FirstPageIgnoresLaterPages | matrix.py:20 | pages after the first never change the selection |
| Ingestion.ProcessPdf | matrix.py:16-26 | exactly one of page or error; page 0 when pages exist; the no-pages message for an empty rendering; "Error processing PDF: " plus the cause when rendering raised |
| Ingestion.Extract | matrix.py:50-68 | no upload leaves the text empty without error; an error always leaves the text empty; an unsupported type shows its message; an image never errors |
| Ingestion.Ingest | matrix.py:50-68 | the upload handler, starting from an empty text and overwriting it in one branch, leaves exactly the text and error of `Extract` |
| Ingestion.OnlyFirstPageMatters | matrix.py:18-20 | two renderings that agree on page 0 give the same extraction, namely the OCR of page 0 |
| Ingestion.PdfWithoutPageExtractsNothing | matrix.py:21-26 | an empty or failed rendering gives an empty text and the matching message |
| Ingestion.UnsupportedIgnoresCollaborators | matrix.py:67-68 | for an unsupported type the outcome does not depend on the decoder, the renderer or OCR |
| App.DisplayedText | matrix.py:98 | the displayed text is never empty: the extracted text when there is some, the fallback sentence when it is empty |
| App.FallbackShownWhenEmpty | matrix.py:98 | the fallback sentence is displayed if and only if the text is empty or is itself that sentence |
| App.Ask | matrix.py:76-98 | echoes the query after "**Your Query:** ", answers with the prefixed cascade reply, and shows the displayed extracted text |
| App.Run | matrix.py:45-98 | the error is ingestion's; both reports are always the fixed renderings; a response exists if and only if Ask was pressed, and it is exactly the echoed query after "**Your Query:** ", the query's answer and the ingested text as displayed |

## Left out

- The Streamlit widgets are replaced by values: the title, subheaders, image previews, markdown and write calls, and the layout. The page's output is the `Screen` value that `App.Run` returns.
- Image decoding (`Image.open`), PDF rendering (`convert_from_bytes`) and OCR (grayscale plus `pytesseract.image_to_string`) are foreign libraries. They are the parameters `decode`, `render` and `ocr`.
- A failure of `Image.open` or of OCR is not modelled. The code does not catch such an exception, so the page run aborts.
- The Tesseract executable path (line 9) is configuration of a foreign tool.
- Reading the uploaded stream (`pdf_file.read()`) is left out. The upload's bytes are passed as a value, and the stream's position is not modelled.
- Text.Lower: folds only the ASCII letters A-Z. Python's `str.lower()` also folds non-ASCII letters. Every trigger keyword is ASCII.
- Ingestion.Ingest: the PDF branch's `if image_from_pdf:` test is read as "a page was returned". The truthiness of a PIL image object is not modelled.
- The report literals are written as concatenations of shorter pieces. The resulting strings are identical to the source's.
