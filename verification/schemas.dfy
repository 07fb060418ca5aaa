/** The structured outputs the language-model stages must conform to
    (the pydantic classes of ai/src/ai/dataClasses.py).

    Each class becomes an immutable datatype whose `Literal[...]` fields are closed
    enumerations. Two functions per class connect it with the dynamic world of the
    pipeline: `...Fields` is the mapping the model's `.dict()` returns, and
    `Validate...` is pydantic's construction from a mapping, which fails (None) on a
    missing required field, a wrongly typed value, or a string outside a `Literal`.
    Optional fields default to None; keys the class does not declare are ignored.
 */
module Schemas {
  import opened Values

  // ---------------------------------------------------------------- enumerations

  /** `Literal["Spam", "Urgent", "Not Urgent", "To Read"]` */
  datatype Category = Spam | Urgent | NotUrgent | ToRead

  const CategoryNames: set<string> := {"Spam", "Urgent", "Not Urgent", "To Read"}

  /** The literal string a category is written as. */
  function CategoryName(c: Category): (name: string)
    ensures name in CategoryNames
  {
    match c
    case Spam => "Spam"
    case Urgent => "Urgent"
    case NotUrgent => "Not Urgent"
    case ToRead => "To Read"
  }

  /** Accepts exactly the four literal strings. */
  function ParseCategory(s: string): (r: Option<Category>)
    ensures r.Some? <==> s in CategoryNames
    ensures r.Some? ==> CategoryName(r.value) == s
  {
    if s == "Spam" then Some(Spam)
    else if s == "Urgent" then Some(Urgent)
    else if s == "Not Urgent" then Some(NotUrgent)
    else if s == "To Read" then Some(ToRead)
    else None
  }

  /** `Literal["Correct", "Incorrect", "Partially correct"]` */
  datatype Verdict = Correct | Incorrect | PartiallyCorrect

  const VerdictNames: set<string> := {"Correct", "Incorrect", "Partially correct"}

  function VerdictName(v: Verdict): (name: string)
    ensures name in VerdictNames
  {
    match v
    case Correct => "Correct"
    case Incorrect => "Incorrect"
    case PartiallyCorrect => "Partially correct"
  }

  function ParseVerdict(s: string): (r: Option<Verdict>)
    ensures r.Some? <==> s in VerdictNames
    ensures r.Some? ==> VerdictName(r.value) == s
  {
    if s == "Correct" then Some(Correct)
    else if s == "Incorrect" then Some(Incorrect)
    else if s == "Partially correct" then Some(PartiallyCorrect)
    else None
  }

  /** Parsing inverts naming, for both enumerations, and naming is injective. */
  lemma LiteralRoundTrip(c: Category, v: Verdict)
    ensures ParseCategory(CategoryName(c)) == Some(c)
    ensures ParseVerdict(VerdictName(v)) == Some(v)
    ensures forall c' :: CategoryName(c') == CategoryName(c) ==> c' == c
    ensures forall v' :: VerdictName(v') == VerdictName(v) ==> v' == v
  {
  }

  // ------------------------------------------------------------- field readers

  /** A required `bool` field. */
  function BoolField(m: map<string, Value>, k: string): Option<bool> {
    if k in m && m[k].VBool? then Some(m[k].b) else None
  }

  /** A required `int` field. */
  function IntField(m: map<string, Value>, k: string): Option<int> {
    if k in m && m[k].VInt? then Some(m[k].i) else None
  }

  /** A required `str` field. */
  function StrField(m: map<string, Value>, k: string): Option<string> {
    if k in m && m[k].VStr? then Some(m[k].s) else None
  }

  /** A required category literal field. */
  function CategoryField(m: map<string, Value>, k: string): Option<Category> {
    if k in m && m[k].VStr? then ParseCategory(m[k].s) else None
  }

  /** A required verdict literal field. */
  function VerdictField(m: map<string, Value>, k: string): Option<Verdict> {
    if k in m && m[k].VStr? then ParseVerdict(m[k].s) else None
  }

  /** An `Optional[str] = None` field: absent or `None` reads as None, a string as
      itself; anything else makes validation fail (the outer None). */
  function OptStrField(m: map<string, Value>, k: string): Option<Option<string>> {
    if k !in m || m[k] == VNone then Some(None)
    else if m[k].VStr? then Some(Some(m[k].s))
    else None
  }

  /** How an optional string appears in a `.dict()` mapping. */
  function OptStrValue(o: Option<string>): Value {
    match o
    case None => VNone
    case Some(s) => VStr(s)
  }

  // -------------------------------------------------------------------- Result

  /** The classification produced by the classify and refine stages. No relation
      between `spam` and `category` is enforced. */
  datatype Result = Result(
    spam: bool,
    category: Category,
    reasoning: string,
    suggestedResponse: Option<string>)

  const ResultKeys: set<string> := {"spam", "category", "reasoning", "suggested_response"}
  const ResultRequired: set<string> := {"spam", "category", "reasoning"}

  /** `Result.dict()` */
  function ResultFields(r: Result): map<string, Value> {
    map[
      "spam" := VBool(r.spam),
      "category" := VStr(CategoryName(r.category)),
      "reasoning" := VStr(r.reasoning),
      "suggested_response" := OptStrValue(r.suggestedResponse)]
  }

  /** `Result(**m)` */
  function ValidateResult(m: map<string, Value>): (r: Option<Result>)
    ensures r.Some? ==> ResultRequired <= m.Keys
    ensures r.Some? ==> m["category"].VStr? && m["category"].s in CategoryNames
    ensures r.Some? ==> OptStrValue(r.value.suggestedResponse)
                        == (if "suggested_response" in m then m["suggested_response"] else VNone)
    ensures r.Some? ==> forall k :: k in ResultRequired ==> ResultFields(r.value)[k] == m[k]
  {
    match (BoolField(m, "spam"), CategoryField(m, "category"),
           StrField(m, "reasoning"), OptStrField(m, "suggested_response"))
    case (Some(spam), Some(category), Some(reasoning), Some(response)) =>
      Some(Result(spam, category, reasoning, response))
    case _ => None
  }

  /** Every Result survives its own `.dict()` and re-validation. */
  lemma ResultRoundTrip(r: Result)
    ensures ValidateResult(ResultFields(r)) == Some(r)
  {
  }

  /** Only the declared keys matter: keys the class does not declare are ignored. */
  lemma ResultIgnoresExtraKeys(m: map<string, Value>)
    ensures ValidateResult(m) == ValidateResult(map k | k in m && k in ResultKeys :: m[k])
  {
  }

  /** The three required fields alone always validate, whatever their combination:
      in particular `spam = false` with category "Spam" is a valid Result, and the
      missing `suggested_response` defaults to None. */
  lemma ResultHasNoCrossFieldCheck(spam: bool, c: Category, reasoning: string)
    ensures ValidateResult(map["spam" := VBool(spam), "category" := VStr(CategoryName(c)),
                               "reasoning" := VStr(reasoning)])
         == Some(Result(spam, c, reasoning, None))
  {
  }

  // ---------------------------------------------------------- EvaluationResult

  /** The evaluator's judgement of a classification. */
  datatype EvaluationResult = EvaluationResult(
    verdict: Verdict,
    explanation: string,
    evaluatorClassification: Category,
    evaluatorSpam: bool,
    suggestedCorrection: Option<string>)

  const EvaluationKeys: set<string> :=
    {"verdict", "explanation", "evaluator_classification", "evaluator_spam", "suggested_correction"}
  const EvaluationRequired: set<string> :=
    {"verdict", "explanation", "evaluator_classification", "evaluator_spam"}

  /** `EvaluationResult.dict()` */
  function EvaluationFields(e: EvaluationResult): map<string, Value> {
    map[
      "verdict" := VStr(VerdictName(e.verdict)),
      "explanation" := VStr(e.explanation),
      "evaluator_classification" := VStr(CategoryName(e.evaluatorClassification)),
      "evaluator_spam" := VBool(e.evaluatorSpam),
      "suggested_correction" := OptStrValue(e.suggestedCorrection)]
  }

  /** `EvaluationResult(**m)` */
  function ValidateEvaluation(m: map<string, Value>): (r: Option<EvaluationResult>)
    // accepted exactly when every declared field reads; the optional one may be absent
    ensures r.Some? <==> && VerdictField(m, "verdict").Some? && StrField(m, "explanation").Some?
                         && CategoryField(m, "evaluator_classification").Some?
                         && BoolField(m, "evaluator_spam").Some?
                         && OptStrField(m, "suggested_correction").Some?
    ensures r.Some? ==> EvaluationRequired <= m.Keys
    ensures r.Some? ==> m["verdict"].VStr? && m["verdict"].s in VerdictNames
    ensures r.Some? ==> m["evaluator_classification"].VStr?
                        && m["evaluator_classification"].s in CategoryNames
    ensures r.Some? ==> OptStrValue(r.value.suggestedCorrection)
                        == (if "suggested_correction" in m then m["suggested_correction"] else VNone)
    ensures r.Some? ==> forall k :: k in EvaluationRequired ==> EvaluationFields(r.value)[k] == m[k]
  {
    match (VerdictField(m, "verdict"), StrField(m, "explanation"),
           CategoryField(m, "evaluator_classification"), BoolField(m, "evaluator_spam"),
           OptStrField(m, "suggested_correction"))
    case (Some(verdict), Some(explanation), Some(category), Some(spam), Some(correction)) =>
      Some(EvaluationResult(verdict, explanation, category, spam, correction))
    case _ => None
  }

  lemma EvaluationRoundTrip(e: EvaluationResult)
    ensures ValidateEvaluation(EvaluationFields(e)) == Some(e)
  {
  }

  /** Only the declared keys matter: keys the class does not declare are ignored. */
  lemma EvaluationIgnoresExtraKeys(m: map<string, Value>)
    ensures ValidateEvaluation(m) == ValidateEvaluation(map k | k in m && k in EvaluationKeys :: m[k])
  {
  }

  /** `suggested_correction` may be left out; it then defaults to None. */
  lemma CorrectionIsOptional(e: EvaluationResult)
    ensures ValidateEvaluation(EvaluationFields(e) - {"suggested_correction"})
         == Some(e.(suggestedCorrection := None))
  {
  }

  // ------------------------------------------------------------------ TestCase

  /** One synthetic test email. `success` is not tied to `expected == predicted`. */
  datatype TestCase = TestCase(
    email: string,
    expected: Category,
    predicted: Category,
    success: bool,
    reasoning: Option<string>)

  const TestCaseKeys: set<string> := {"email", "expected", "predicted", "success", "reasoning"}
  const TestCaseRequired: set<string> := {"email", "expected", "predicted", "success"}

  /** `TestCase.dict()` */
  function TestCaseFields(t: TestCase): map<string, Value> {
    map[
      "email" := VStr(t.email),
      "expected" := VStr(CategoryName(t.expected)),
      "predicted" := VStr(CategoryName(t.predicted)),
      "success" := VBool(t.success),
      "reasoning" := OptStrValue(t.reasoning)]
  }

  /** `TestCase(**m)` */
  function ValidateTestCase(m: map<string, Value>): (r: Option<TestCase>)
    // accepted exactly when every declared field reads; the optional one may be absent
    ensures r.Some? <==> && StrField(m, "email").Some? && CategoryField(m, "expected").Some?
                         && CategoryField(m, "predicted").Some? && BoolField(m, "success").Some?
                         && OptStrField(m, "reasoning").Some?
    ensures r.Some? ==> TestCaseRequired <= m.Keys
    ensures r.Some? ==> m["expected"].VStr? && m["expected"].s in CategoryNames
    ensures r.Some? ==> m["predicted"].VStr? && m["predicted"].s in CategoryNames
    ensures r.Some? ==> OptStrValue(r.value.reasoning)
                        == (if "reasoning" in m then m["reasoning"] else VNone)
    ensures r.Some? ==> forall k :: k in TestCaseRequired ==> TestCaseFields(r.value)[k] == m[k]
  {
    match (StrField(m, "email"), CategoryField(m, "expected"), CategoryField(m, "predicted"),
           BoolField(m, "success"), OptStrField(m, "reasoning"))
    case (Some(email), Some(expected), Some(predicted), Some(success), Some(reasoning)) =>
      Some(TestCase(email, expected, predicted, success, reasoning))
    case _ => None
  }

  lemma TestCaseRoundTrip(t: TestCase)
    ensures ValidateTestCase(TestCaseFields(t)) == Some(t)
  {
  }

  /** Only the declared keys matter: keys the class does not declare are ignored. */
  lemma TestCaseIgnoresExtraKeys(m: map<string, Value>)
    ensures ValidateTestCase(m) == ValidateTestCase(map k | k in m && k in TestCaseKeys :: m[k])
  {
  }

  /** `reasoning` may be left out; it then defaults to None. */
  lemma ReasoningIsOptional(t: TestCase)
    ensures ValidateTestCase(TestCaseFields(t) - {"reasoning"}) == Some(t.(reasoning := None))
  {
  }

  /** A test case may claim success although the labels differ, and failure
      although they agree. */
  lemma SuccessIsNotChecked(email: string, expected: Category, predicted: Category, success: bool)
    ensures ValidateTestCase(TestCaseFields(TestCase(email, expected, predicted, success, None)))
         == Some(TestCase(email, expected, predicted, success, None))
  {
  }

  // -------------------------------------------------------- TestClassification

  /** A batch of test cases with the tester's score. `score` is any integer: it is
      tied neither to the number of tests nor to the number of successes. */
  datatype TestClassification = TestClassification(
    tests: seq<TestCase>,
    score: int,
    suggestion: Option<string>)

  /** The `.dict()` view of a list of test cases. */
  function TestCaseValues(ts: seq<TestCase>): (vs: seq<Value>)
    ensures |vs| == |ts|
    ensures forall i :: 0 <= i < |ts| ==> vs[i] == VDict(TestCaseFields(ts[i]))
  {
    seq(|ts|, i requires 0 <= i < |ts| => VDict(TestCaseFields(ts[i])))
  }

  /** `TestClassification.dict()` (nested models become dictionaries). */
  function TestClassificationFields(c: TestClassification): map<string, Value> {
    map[
      "tests" := VList(TestCaseValues(c.tests)),
      "score" := VInt(c.score),
      "suggestion" := OptStrValue(c.suggestion)]
  }

  /** Validation of `List[TestCase]`: every element must be a mapping that validates,
      and the order is kept. */
  function ValidateTestCases(vs: seq<Value>): (r: Option<seq<TestCase>>)
    ensures r.Some? <==> forall i :: 0 <= i < |vs| ==>
                           vs[i].VDict? && ValidateTestCase(vs[i].entries).Some?
    ensures r.Some? ==> |r.value| == |vs|
                        && forall i :: 0 <= i < |vs| ==>
                             Some(r.value[i]) == ValidateTestCase(vs[i].entries)
  {
    if vs == [] then Some([])
    else if !vs[0].VDict? then None
    else match (ValidateTestCase(vs[0].entries), ValidateTestCases(vs[1..]))
      case (Some(t), Some(ts)) => Some([t] + ts)
      case _ => None
  }

  /** `TestClassification(**m)` */
  function ValidateTestClassification(m: map<string, Value>): (r: Option<TestClassification>)
    ensures r.Some? ==> "tests" in m && m["tests"].VList? && "score" in m && m["score"].VInt?
    ensures r.Some? ==> |r.value.tests| == |m["tests"].items| && r.value.score == m["score"].i
    ensures r.Some? <==> && "tests" in m && m["tests"].VList?
                         && ValidateTestCases(m["tests"].items).Some?
                         && IntField(m, "score").Some? && OptStrField(m, "suggestion").Some?
    ensures r.Some? ==> Some(r.value.tests) == ValidateTestCases(m["tests"].items)
    ensures r.Some? ==> OptStrValue(r.value.suggestion)
                        == (if "suggestion" in m then m["suggestion"] else VNone)
  {
    var tests := if "tests" in m && m["tests"].VList? then ValidateTestCases(m["tests"].items) else None;
    match (tests, IntField(m, "score"), OptStrField(m, "suggestion"))
    case (Some(ts), Some(score), Some(suggestion)) => Some(TestClassification(ts, score, suggestion))
    case _ => None
  }

  lemma {:induction false} TestCasesRoundTrip(ts: seq<TestCase>)
    ensures ValidateTestCases(TestCaseValues(ts)) == Some(ts)
  {
    if ts != [] {
      TestCaseRoundTrip(ts[0]);
      TestCasesRoundTrip(ts[1..]);
      assert TestCaseValues(ts)[1..] == TestCaseValues(ts[1..]);
      assert [ts[0]] + ts[1..] == ts;
    }
  }

  lemma TestClassificationRoundTrip(c: TestClassification)
    ensures ValidateTestClassification(TestClassificationFields(c)) == Some(c)
  {
    TestCasesRoundTrip(c.tests);
  }

  /** Any list of test cases validates with any score, including a score that differs
      from both the number of tests and the number of successes. */
  lemma ScoreIsNotChecked(ts: seq<TestCase>, score: int)
    ensures ValidateTestClassification(map["tests" := VList(TestCaseValues(ts)), "score" := VInt(score)])
         == Some(TestClassification(ts, score, None))
  {
    TestCasesRoundTrip(ts);
  }
}
