/** The question answerer: a lower-cased query is tested against an ordered list
    of keyword conjunctions and the first one that holds picks a canned reply. */
module QueryMatcher {
  import opened Text

  const ANSWER_PREFIX: string := "**Knowledge-Based Answer:** "

  const F1_SCORE_REPLY: string :=
    "The F1 score is a common metric derived from a confusion matrix, especially for binary classification. It is the harmonic mean of precision and recall. Precision is TP / (TP + FP), and recall is TP / (TP + FN). A potential issue would be an F1 score calculated incorrectly from the TP, FP, and FN values (if they were present)."
  const ACCURACY_REPLY: string :=
    "Accuracy, in the context of a confusion matrix, is typically calculated as (TP + TN) / (TP + TN + FP + FN) for binary classification. An incorrect accuracy would arise from using the wrong formula or incorrect values from the matrix."
  const PRECISION_REPLY: string :=
    "Precision (also called positive predictive value) is calculated as TP / (TP + FP). It indicates how many of the positively predicted cases were actually positive. An incorrect precision would result from using the wrong TP or FP values."
  const RECALL_REPLY: string :=
    "Recall (also called sensitivity or true positive rate) is calculated as TP / (TP + FN). It indicates how many of the actual positive cases were correctly identified. An incorrect recall would result from using the wrong TP or FN values."
  const SYNTAX_REPLY: string :=
    "A formula with incorrect syntax might have unbalanced parentheses, missing operators between variables or numbers, or misuse of mathematical symbols."
  const UNDEFINED_VARIABLE_REPLY: string :=
    "A formula using an undefined variable (a variable not introduced or explained within the context) would be considered potentially incorrect or incomplete."
  const DEFAULT_REPLY: string :=
    "Based on general knowledge, I don't see an immediately obvious issue related to your query."

  /** The seven canned answers, one per topic; the last is the default. */
  datatype Topic =
    | F1Score | Accuracy | Precision | Recall | FormulaSyntax | UndefinedVariable | NoObviousIssue

  /** The canned reply for a topic. */
  function ReplyText(topic: Topic): string {
    match topic
    case F1Score => F1_SCORE_REPLY
    case Accuracy => ACCURACY_REPLY
    case Precision => PRECISION_REPLY
    case Recall => RECALL_REPLY
    case FormulaSyntax => SYNTAX_REPLY
    case UndefinedVariable => UNDEFINED_VARIABLE_REPLY
    case NoObviousIssue => DEFAULT_REPLY
  }

  /** The if/elif cascade of the question handler, on the lower-cased query: the first
      keyword conjunction that holds picks the topic. */
  function Classify(query: string): Topic {
    var q := Lower(query);
    if Contains(q, "f1 score") then F1Score
    else if Contains(q, "accuracy") && Contains(q, "confusion matrix") then Accuracy
    else if Contains(q, "precision") && Contains(q, "confusion matrix") then Precision
    else if Contains(q, "recall") && Contains(q, "confusion matrix") then Recall
    else if Contains(q, "formula") && Contains(q, "syntax") then FormulaSyntax
    else if Contains(q, "variable") && Contains(q, "defined") && Contains(q, "formula") then UndefinedVariable
    else NoObviousIssue
  }

  /** The text appended to the answer prefix. */
  function Reply(query: string): string {
    ReplyText(Classify(query))
  }

  /** The full answer: the fixed prefix followed by the selected reply. */
  function Answer(query: string): (r: string)
    ensures StartsWith(r, ANSWER_PREFIX)
  {
    PrefixStartsConcat(ANSWER_PREFIX, Reply(query));
    ANSWER_PREFIX + Reply(query)
  }

  // ---------------------------------------------------------------------------
  // The same behaviour as a declarative rule table.

  /** A rule fires when the lower-cased query contains every one of its keywords. */
  datatype Rule = Rule(keywords: seq<string>, topic: Topic)

  predicate Fires(rule: Rule, q: string) {
    ContainsAll(q, rule.keywords)
  }

  predicate ContainsAll(q: string, keywords: seq<string>)
    decreases |keywords|
  {
    keywords == [] || (Contains(q, keywords[0]) && ContainsAll(q, keywords[1..]))
  }

  /** `ContainsAll` is the conjunction of one `Contains` per keyword. */
  lemma {:induction false} ContainsAllEach(q: string, keywords: seq<string>)
    ensures ContainsAll(q, keywords) <==> forall k :: 0 <= k < |keywords| ==> Contains(q, keywords[k])
    decreases |keywords|
  {
    if keywords != [] {
      ContainsAllEach(q, keywords[1..]);
      assert forall k :: 1 <= k < |keywords| ==> keywords[k] == keywords[1..][k - 1];
    }
  }

  /** A table ends with a catch-all rule, one without keywords, so some rule always fires. */
  predicate EndsWithCatchAll(rules: seq<Rule>) {
    |rules| > 0 && rules[|rules| - 1].keywords == []
  }

  /** The index of the first rule that fires. */
  function FirstMatch(rules: seq<Rule>, q: string): (i: nat)
    requires EndsWithCatchAll(rules)
    ensures i < |rules|
    ensures Fires(rules[i], q)
    ensures forall j :: 0 <= j < i ==> !Fires(rules[j], q)
    decreases |rules|
  {
    if Fires(rules[0], q) then 0
    else 1 + FirstMatch(rules[1..], q)
  }

  /** The rules of the question handler, in order, with the default as the catch-all. */
  const RULES: seq<Rule> := [
    Rule(["f1 score"], F1Score),
    Rule(["accuracy", "confusion matrix"], Accuracy),
    Rule(["precision", "confusion matrix"], Precision),
    Rule(["recall", "confusion matrix"], Recall),
    Rule(["formula", "syntax"], FormulaSyntax),
    Rule(["variable", "defined", "formula"], UndefinedVariable),
    Rule([], NoObviousIssue)
  ]

  /** The topic the table selects: that of the first rule firing on the lower-cased query. */
  function TableTopic(query: string): Topic {
    RULES[FirstMatch(RULES, Lower(query))].topic
  }

  /** What each rule of the table asks of a lower-cased query, spelled out. */
  lemma FiresSpelledOut(q: string)
    ensures Fires(RULES[0], q) <==> Contains(q, "f1 score")
    ensures Fires(RULES[1], q) <==> Contains(q, "accuracy") && Contains(q, "confusion matrix")
    ensures Fires(RULES[2], q) <==> Contains(q, "precision") && Contains(q, "confusion matrix")
    ensures Fires(RULES[3], q) <==> Contains(q, "recall") && Contains(q, "confusion matrix")
    ensures Fires(RULES[4], q) <==> Contains(q, "formula") && Contains(q, "syntax")
    ensures Fires(RULES[5], q) <==> Contains(q, "variable") && Contains(q, "defined") && Contains(q, "formula")
    ensures Fires(RULES[6], q)
  {
  }

  /** The cascade and the rule table select the same topic for every query. */
  lemma CascadeAgreesWithTable(query: string)
    ensures Classify(query) == TableTopic(query)
  {
    var q := Lower(query);
    FiresSpelledOut(q);
    var i := FirstMatch(RULES, q);
    assert forall j :: 0 <= j < i ==> !Fires(RULES[j], q);
  }

  // ---------------------------------------------------------------------------
  // Properties of the matcher.

  /** Each rule has its own topic (rule `k` holds the `k`-th constructor). */
  lemma RuleTopicsDistinct()
    ensures forall i, j :: 0 <= i < |RULES| && 0 <= j < |RULES| && RULES[i].topic == RULES[j].topic ==> i == j
  {
  }

  /** First match wins: the topic is rule `i`'s exactly when rule `i` fires and no earlier rule does. */
  lemma ClassifyIsFirstFiringRule(query: string, i: nat)
    requires i < |RULES|
    ensures Classify(query) == RULES[i].topic <==>
      Fires(RULES[i], Lower(query)) && forall j :: 0 <= j < i ==> !Fires(RULES[j], Lower(query))
  {
    var q := Lower(query);
    CascadeAgreesWithTable(query);
    var m := FirstMatch(RULES, q);
    RuleTopicsDistinct();
    if Fires(RULES[i], q) && forall j :: 0 <= j < i ==> !Fires(RULES[j], q) {
      assert !(m < i) && !(i < m);
    }
  }

  /** Different topics have different replies. */
  lemma ReplyTextInjective(s: Topic, t: Topic)
    requires ReplyText(s) == ReplyText(t)
    ensures s == t
  {
  }

  /** Two queries get the same answer exactly when they fall on the same topic: an answer
      is one of seven strings, one per topic. */
  lemma AnswerIdentifiesTopic(a: string, b: string)
    ensures Answer(a) == Answer(b) <==> Classify(a) == Classify(b)
  {
    if Answer(a) == Answer(b) {
      PrefixStartsConcat(ANSWER_PREFIX, Reply(a));
      PrefixStartsConcat(ANSWER_PREFIX, Reply(b));
      ReplyTextInjective(Classify(a), Classify(b));
    }
  }

  /** A query that mentions "f1 score", in any letter case, gets the F1 answer whatever else it says. */
  lemma F1ScoreWins(query: string)
    requires Contains(Lower(query), "f1 score")
    ensures Classify(query) == F1Score
    ensures Answer(query) == ANSWER_PREFIX + F1_SCORE_REPLY
  {
  }

  /** The answer depends only on the lower-cased query. */
  lemma AnswerIgnoresCase(query: string)
    ensures Classify(query) == Classify(Lower(query))
    ensures Answer(query) == Answer(Lower(query))
  {
    LowerIdempotent(query);
  }

  lemma UpperCaseF1Example()
    ensures Classify("F1 SCORE") == Classify("f1 score") == F1Score
  {
    assert Lower("F1 SCORE") == "f1 score";
    assert StartsWith("f1 score", "f1 score");
  }

  /** The lower-cased accuracy question holds both accuracy keywords and, having no '1',
      cannot hold "f1 score". */
  lemma AccuracyQuestionKeywords(q: string)
    requires q == "what is " + "accuracy" + " in a " + "confusion matrix" + "?"
    ensures Contains(q, "accuracy") && Contains(q, "confusion matrix")
    ensures !Contains(q, "f1 score")
  {
    var a, b, c, d := "what is ", "accuracy", " in a ", "confusion matrix";
    assert q[|a|..|a| + |b|] == b;
    ContainsAt(q, b, |a|);
    assert q[|a + b + c|..|a + b + c| + |d|] == d;
    ContainsAt(q, d, |a + b + c|);
    assert "f1 score"[1] !in q;
    MissingCharNotContained(q, "f1 score", 1);
  }

  /** "What is accuracy in a confusion matrix?" gets the accuracy answer, not the default. */
  lemma AccuracyQuestionExample(query: string)
    requires query == "What is " + "accuracy" + " in a " + "confusion matrix" + "?"
    ensures Classify(query) == Accuracy
    ensures Answer(query) == ANSWER_PREFIX + ACCURACY_REPLY
  {
    var a, b, c, d, e := "What is ", "accuracy", " in a ", "confusion matrix", "?";
    assert Lower(a) == "what is ";
    LowerOfLowerCase(b);
    LowerOfLowerCase(c);
    LowerOfLowerCase(d);
    LowerOfLowerCase(e);
    LowerConcat(a, b);
    LowerConcat(a + b, c);
    LowerConcat(a + b + c, d);
    LowerConcat(a + b + c + d, e);
    AccuracyQuestionKeywords(Lower(query));
  }

  /** Every trigger keyword of the cascade. */
  const KEYWORDS: seq<string> := [
    "f1 score", "accuracy", "confusion matrix", "precision", "recall",
    "formula", "syntax", "variable", "defined"
  ]

  /** A query containing none of the trigger keywords gets the default answer. */
  lemma NoKeywordGetsDefault(query: string)
    requires forall k :: 0 <= k < |KEYWORDS| ==> !Contains(Lower(query), KEYWORDS[k])
    ensures Classify(query) == NoObviousIssue
  {
    assert !Contains(Lower(query), KEYWORDS[0]);
    assert !Contains(Lower(query), KEYWORDS[1]);
    assert !Contains(Lower(query), KEYWORDS[3]);
    assert !Contains(Lower(query), KEYWORDS[4]);
    assert !Contains(Lower(query), KEYWORDS[5]);
  }

  /** The empty query and every query made only of spaces get the default answer. */
  lemma BlankQueryGetsDefault(query: string)
    requires forall i :: 0 <= i < |query| ==> query[i] == ' '
    ensures Classify(query) == NoObviousIssue
    ensures Answer(query) == ANSWER_PREFIX + DEFAULT_REPLY
  {
    var q := Lower(query);
    assert forall i :: 0 <= i < |q| ==> q[i] == ' ';
    forall k | 0 <= k < |KEYWORDS|
      ensures !Contains(q, KEYWORDS[k])
    {
      assert KEYWORDS[k][0] != ' ';
      MissingCharNotContained(q, KEYWORDS[k], 0);
    }
    NoKeywordGetsDefault(query);
  }

  lemma EmptyQueryGetsDefault()
    ensures Answer("") == ANSWER_PREFIX + DEFAULT_REPLY
  {
    BlankQueryGetsDefault("");
  }

  /** The undefined-variable answer needs "variable", "defined" and "formula" all present. */
  lemma UndefinedVariableNeedsAllThree(query: string)
    requires Classify(query) == UndefinedVariable
    ensures Contains(Lower(query), "variable")
    ensures Contains(Lower(query), "defined")
    ensures Contains(Lower(query), "formula")
  {
  }

  /** The syntax rule shadows the undefined-variable rule: a query with both "formula" and
      "syntax" never gets the undefined-variable answer. */
  lemma SyntaxShadowsUndefinedVariable(query: string)
    requires Contains(Lower(query), "formula") && Contains(Lower(query), "syntax")
    ensures Classify(query) != UndefinedVariable
  {
  }
}
