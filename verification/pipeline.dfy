/** The orchestration of ai/src/ai/main.py: `run` (classify, evaluate, refine when
    the evaluator disagrees), `run_test` (one call of the tester) and the label
    extraction of `compute_metrics`.

    The language-model library is not modelled: `Stages.execute` stands for
    `agent.execute_task(task, context)`, answering with a value or an exception
    message, and `Stages.loads` stands for `json.loads`, answering None when it
    raises. An `Execution` pairs the caller-visible outcome with the list of
    `execute_task` calls made, so contracts can say which calls happen and with what
    context.
 */
module Pipeline {
  import opened Values
  import opened Schemas
  import opened Crew

  /** One `agent.execute_task(task, context)` call. */
  datatype Call = Call(agent: AgentName, task: TaskName, context: map<string, Value>)

  /** The external collaborators of the pipeline. */
  datatype Stages = Stages(
    execute: (AgentName, TaskName, map<string, Value>) -> Outcome<Value, string>,
    loads: string -> Option<Value>)

  /** What one operation did: the calls made, in order, and what the caller sees. */
  datatype Execution = Execution(calls: seq<Call>, result: Outcome<map<string, Value>, string>)

  /** The answer a call gets. */
  function Respond(st: Stages, c: Call): Outcome<Value, string> {
    st.execute(c.agent, c.task, c.context)
  }

  const CrewErrorPrefix: string := "An error occurred while running the crew: "
  const TestErrorPrefix: string := "An error occurred while running the test suite: "

  /** The verdict strings that send a classification back for refinement. */
  const RefineVerdicts: seq<Value> := [VStr("Incorrect"), VStr("Partially correct")]

  /** The keys of the mapping `run` returns. */
  const RunKeys: set<string> := {"classification_output", "evaluation_output", "refinement_output"}

  /** The context key under which a task's output is handed to later stages. */
  function OutputKey(t: TaskName): string {
    match t
    case ClassificationTask => "classification_output"
    case EvaluationTask => "evaluation_output"
    case RefineClassificationTask => "refinement_output"
    case TestClassificationTask => "test_output"
  }

  // ------------------------------------------------------------------ the calls

  function ClassifyCall(email: string): Call {
    Call(Classifier, ClassificationTask, map["email" := VStr(email)])
  }

  function EvaluateCall(email: string, classification: Value): Call {
    Call(Evaluator, EvaluationTask,
         map["email" := VStr(email), "classification_output" := classification])
  }

  function RefineCall(email: string, classification: Value, evaluation: Value): Call {
    Call(Classifier, RefineClassificationTask,
         map["email" := VStr(email), "classification_output" := classification,
             "evaluation_output" := evaluation])
  }

  // --------------------------------------------------------------- the decision

  /** The evaluation result turned into a dictionary: a model becomes its `.dict()`,
      a string is JSON-decoded (the empty dictionary when decoding fails), anything
      else is kept as it is. */
  function NormaliseEvaluation(evaluation: Value, loads: string -> Option<Value>): (d: Value)
    // a model yields its fields, an undecodable string the empty dictionary
    ensures evaluation.VModel? ==> d == VDict(evaluation.fields)
    ensures evaluation.VStr? && loads(evaluation.s).None? ==> d == VDict(map[])
    ensures evaluation.VStr? && loads(evaluation.s).Some? ==> d == loads(evaluation.s).value
    ensures !evaluation.VModel? && !evaluation.VStr? ==> d == evaluation
    // the result is a dictionary unless the value is neither a model, a string nor a
    // dictionary, or is a string whose JSON decodes to something else
    ensures d.VDict? <==> || evaluation.VModel? || evaluation.VDict?
                          || (evaluation.VStr? && (loads(evaluation.s).None? || loads(evaluation.s).value.VDict?))
  {
    if HasDictMethod(evaluation) then VDict(evaluation.fields)
    else if evaluation.VStr? then
      match loads(evaluation.s)
      case Some(decoded) => decoded
      case None => VDict(map[])
    else evaluation
  }

  /** `normalised.get("verdict") in ["Incorrect", "Partially correct"]`; raises when
      the normalised value is not a dictionary. */
  function RefinementWanted(evaluation: Value, loads: string -> Option<Value>): (r: Outcome<bool, string>)
    ensures r.Ok? <==> NormaliseEvaluation(evaluation, loads).VDict?
    ensures r.Ok? ==> (r.value <==> var d := NormaliseEvaluation(evaluation, loads).entries;
                                      "verdict" in d && d["verdict"] in RefineVerdicts)
    ensures r.Err? ==> r.error == NoGetMessage(NormaliseEvaluation(evaluation, loads))
  {
    match Get(NormaliseEvaluation(evaluation, loads), "verdict")
    case Ok(verdict) => Ok(verdict in RefineVerdicts)
    case Err(e) => Err(e)
  }

  /** `refined.dict() if refined and hasattr(refined, "dict") else refined` */
  function RefinementView(refined: Value): (v: Value)
    ensures refined.VModel? ==> v == VDict(refined.fields)
    ensures !refined.VModel? ==> v == refined
  {
    if Truthy(refined) && HasDictMethod(refined) then VDict(refined.fields) else refined
  }

  /** The mapping a successful run returns. */
  function RunOutput(classification: Value, evaluation: Value, refinement: Value): map<string, Value> {
    map["classification_output" := classification,
        "evaluation_output" := evaluation,
        "refinement_output" := refinement]
  }

  // ------------------------------------------------------------------------ run

  /** `run(email)`: classify, evaluate, and refine when the evaluator's normalised
      verdict is "Incorrect" or "Partially correct". Every exception, from a stage or
      from reading the verdict, aborts the run with one wrapped message. */
  function Run(email: string, st: Stages): (x: Execution)
    // the classification task runs first, with the email alone, and only once
    ensures 1 <= |x.calls| <= 3
    ensures x.calls[0] == ClassifyCall(email)
    ensures forall i :: 1 <= i < |x.calls| ==> x.calls[i].task != ClassificationTask
    // the evaluator follows exactly when classification succeeded, and sees its raw result
    ensures |x.calls| >= 2 <==> Respond(st, x.calls[0]).Ok?
    ensures |x.calls| >= 2 ==> x.calls[1] == EvaluateCall(email, Respond(st, x.calls[0]).value)
    // refinement follows exactly when the evaluation answered and its verdict disagrees
    ensures |x.calls| == 3 <==> |x.calls| >= 2 && Respond(st, x.calls[1]).Ok?
                                && RefinementWanted(Respond(st, x.calls[1]).value, st.loads) == Ok(true)
    ensures |x.calls| == 3 ==> x.calls[2] == RefineCall(email, Respond(st, x.calls[0]).value,
                                                        Respond(st, x.calls[1]).value)
    // success returns the three outputs; the first two exactly as the stages produced them
    ensures x.result.Ok? ==> |x.calls| >= 2 && forall c :: c in x.calls ==> Respond(st, c).Ok?
    ensures x.result.Ok? ==> x.result.value.Keys == RunKeys
    ensures x.result.Ok? ==> && x.result.value["classification_output"] == Respond(st, x.calls[0]).value
                             && x.result.value["evaluation_output"] == Respond(st, x.calls[1]).value
    ensures x.result.Ok? && |x.calls| == 2 ==> x.result.value["refinement_output"] == VNone
    ensures x.result.Ok? && |x.calls| == 3 ==>
              x.result.value["refinement_output"] == RefinementView(Respond(st, x.calls[2]).value)
    // failure: the last call raised, or the verdict could not be read; the cause is wrapped
    ensures x.result.Err? && Respond(st, x.calls[|x.calls| - 1]).Err? ==>
              x.result.error == CrewErrorPrefix + Respond(st, x.calls[|x.calls| - 1]).error
    // an unreadable verdict aborts the run
    ensures |x.calls| == 2 && Respond(st, x.calls[1]).Ok?
            && RefinementWanted(Respond(st, x.calls[1]).value, st.loads).Err?
            ==> x.result.Err?
    ensures x.result.Err? && Respond(st, x.calls[|x.calls| - 1]).Ok? ==>
              |x.calls| == 2 && RefinementWanted(Respond(st, x.calls[1]).value, st.loads).Err?
              && x.result.error == CrewErrorPrefix + RefinementWanted(Respond(st, x.calls[1]).value, st.loads).error
  {
    var classify := ClassifyCall(email);
    match Respond(st, classify)
    case Err(e) => Execution([classify], Err(CrewErrorPrefix + e))
    case Ok(classification) =>
      var evaluate := EvaluateCall(email, classification);
      match Respond(st, evaluate)
      case Err(e) => Execution([classify, evaluate], Err(CrewErrorPrefix + e))
      case Ok(evaluation) =>
        match RefinementWanted(evaluation, st.loads)
        case Err(e) => Execution([classify, evaluate], Err(CrewErrorPrefix + e))
        case Ok(false) => Execution([classify, evaluate], Ok(RunOutput(classification, evaluation, VNone)))
        case Ok(true) =>
          var refine := RefineCall(email, classification, evaluation);
          match Respond(st, refine)
          case Err(e) => Execution([classify, evaluate, refine], Err(CrewErrorPrefix + e))
          case Ok(refined) =>
            Execution([classify, evaluate, refine],
                      Ok(RunOutput(classification, evaluation, RefinementView(refined))))
  }

  // ------------------------------------------------------------------- run_test

  function TestCall(numTests: int): Call {
    Call(Tester, TestClassificationTask, map["num_tests" := VInt(numTests)])
  }

  /** `run_test(num_tests)`: one call of the tester, its answer returned unchanged. */
  function RunTest(numTests: int, st: Stages): (x: Execution)
    ensures x.calls == [TestCall(numTests)]
    ensures x.result.Ok? <==> Respond(st, TestCall(numTests)).Ok?
    ensures x.result.Ok? ==> x.result.value == map["test_output" := Respond(st, TestCall(numTests)).value]
    ensures x.result.Err? ==> x.result.error == TestErrorPrefix + Respond(st, TestCall(numTests)).error
  {
    var test := TestCall(numTests);
    match Respond(st, test)
    case Ok(output) => Execution([test], Ok(map["test_output" := output]))
    case Err(e) => Execution([test], Err(TestErrorPrefix + e))
  }

  // ------------------------------------------------------------ compute_metrics

  /** `[case[key] for case in cases]`: the first case that cannot be subscripted
      with `key` raises. */
  function Column(cases: seq<Value>, key: string): (r: Outcome<seq<Value>, LookupError>)
    ensures r.Ok? <==> forall i :: 0 <= i < |cases| ==> Subscript(cases[i], key).Ok?
    ensures r.Ok? ==> |r.value| == |cases|
                      && forall i :: 0 <= i < |cases| ==> Ok(r.value[i]) == Subscript(cases[i], key)
    ensures r.Err? ==> exists i :: 0 <= i < |cases| && Subscript(cases[i], key) == Err(r.error)
                                   && forall j :: 0 <= j < i ==> Subscript(cases[j], key).Ok?
  {
    if cases == [] then Ok([])
    else match Subscript(cases[0], key)
      case Err(e) => Err(e)
      case Ok(v) =>
        match Column(cases[1..], key)
        case Err(e) =>
          Err(e)
        case Ok(rest) => Ok([v] + rest)
  }

  /** The `expected` and `predicted` lists `compute_metrics` hands to the report. The
      `expected` list is built first, so its errors take precedence. */
  function MetricsLabels(cases: seq<Value>): (r: Outcome<(seq<Value>, seq<Value>), LookupError>)
    ensures r.Ok? <==> forall i :: 0 <= i < |cases| ==>
                         cases[i].VDict? && "expected" in cases[i].entries && "predicted" in cases[i].entries
    ensures r.Ok? ==> |r.value.0| == |cases| && |r.value.1| == |cases|
    ensures r.Ok? ==> forall i :: 0 <= i < |cases| ==>
                        r.value.0[i] == cases[i].entries["expected"]
                        && r.value.1[i] == cases[i].entries["predicted"]
    ensures r.Err? && (forall i :: 0 <= i < |cases| ==> cases[i].VDict?) ==>
              r.error in {KeyMissing("expected"), KeyMissing("predicted")}
    // the `expected` column is built first: its first failing case decides the error
    ensures (exists i :: 0 <= i < |cases| && Subscript(cases[i], "expected").Err?) ==>
              && r.Err?
              && exists i :: && 0 <= i < |cases| && Subscript(cases[i], "expected") == Err(r.error)
                             && forall j :: 0 <= j < i ==> Subscript(cases[j], "expected").Ok?
    // only once every case has `expected` does the first case without `predicted` decide it
    ensures r.Err? && (forall i :: 0 <= i < |cases| ==> Subscript(cases[i], "expected").Ok?) ==>
              exists i :: && 0 <= i < |cases| && Subscript(cases[i], "predicted") == Err(r.error)
                          && forall j :: 0 <= j < i ==> Subscript(cases[j], "predicted").Ok?
  {
    match Column(cases, "expected")
    case Err(e) => Err(e)
    case Ok(expected) =>
      match Column(cases, "predicted")
      case Err(e) => Err(e)
      case Ok(predicted) => Ok((expected, predicted))
  }
}
