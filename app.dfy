/** One run of the page: ingest the upload, build both knowledge reports, and, when
    the Ask button was pressed, answer the query next to the extracted text. Widgets
    are replaced by their values: the upload, the query and whether Ask was pressed
    are inputs, and what the page writes is the output. */
module App {
  import opened Text
  import opened Wrappers
  import QueryMatcher
  import KnowledgeBase
  import Ingestion

  const QUERY_PREFIX: string := "**Your Query:** "
  const NO_TEXT_MESSAGE: string := "No text extracted from the image."

  /** The extracted text as displayed: the text itself, or a fallback when it is empty. */
  function DisplayedText(extracted: string): (r: string)
    ensures r != ""
    ensures extracted != "" ==> r == extracted
    ensures extracted == "" ==> r == NO_TEXT_MESSAGE
  {
    if extracted != "" then extracted else NO_TEXT_MESSAGE
  }

  /** The fallback appears exactly when there is no text, or when the recognised text
      happens to be the fallback sentence itself. */
  lemma FallbackShownWhenEmpty(extracted: string)
    ensures DisplayedText(extracted) == NO_TEXT_MESSAGE <==>
      extracted == "" || extracted == NO_TEXT_MESSAGE
  {
  }

  /** What the Ask button writes: the echoed query, the answer and the extracted text. */
  datatype Response = Response(echo: string, answer: string, context: string)

  /** The Ask handler: the answer starts as the prefix and the selected reply is
      appended to it. */
  method Ask(query: string, extractedText: string) returns (response: Response)
    ensures response.echo == QUERY_PREFIX + query
    ensures response.answer == QueryMatcher.Answer(query)
    ensures StartsWith(response.answer, QueryMatcher.ANSWER_PREFIX)
    ensures response.context == DisplayedText(extractedText)
  {
    var echo := QUERY_PREFIX + query;
    var knowledgeBasedAnswer := QueryMatcher.ANSWER_PREFIX;
    knowledgeBasedAnswer := knowledgeBasedAnswer + QueryMatcher.Reply(query);
    response := Response(echo, knowledgeBasedAnswer, DisplayedText(extractedText));
  }

  /** Everything one run of the page writes, in terms of values. */
  datatype Screen = Screen(
    error: Option<string>,
    confusionMatrixReport: string,
    formulaReport: string,
    response: Option<Response>)

  /** One run of the page. The reports are always present and fixed; the answer depends
      on the query alone; the extracted text only affects the context line. */
  method Run<Img>(
    upload: Option<Ingestion.Upload>,
    query: string,
    askPressed: bool,
    decode: seq<bv8> -> Img,
    render: seq<bv8> -> Ingestion.Rendered<Img>,
    ocr: Img -> string
  ) returns (screen: Screen)
    ensures screen.error == Ingestion.Extract(upload, decode, render, ocr).error
    ensures screen.confusionMatrixReport == KnowledgeBase.Render(KnowledgeBase.CONFUSION_MATRIX_KNOWLEDGE)
    ensures screen.formulaReport == KnowledgeBase.Render(KnowledgeBase.FORMULA_KNOWLEDGE)
    ensures screen.response.Some? <==> askPressed
    ensures askPressed ==> screen.response.value == Response(
      QUERY_PREFIX + query,
      QueryMatcher.Answer(query),
      DisplayedText(Ingestion.Extract(upload, decode, render, ocr).text))
  {
    var confusionMatrixReport := KnowledgeBase.AnalyzeConfusionMatrixKnowledge();
    var formulaReport := KnowledgeBase.AnalyzeFormulasKnowledge();
    var extractedText, error := Ingestion.Ingest(upload, decode, render, ocr);
    var response := None;
    if askPressed {
      var r := Ask(query, extractedText);
      response := Some(r);
    }
    screen := Screen(error, confusionMatrixReport, formulaReport, response);
  }
}
