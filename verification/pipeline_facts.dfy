/** Properties of the orchestration in ai/src/ai/main.py that relate it to the
    schemas (dataClasses.py) and to the task table (crew.py).
 */
module PipelineFacts {
  import opened Values
  import opened Schemas
  import opened Crew
  import opened Pipeline

  // ------------------------------------------------ the verdict and refinement

  /** The strings that trigger refinement are exactly the names of the verdicts
      other than "Correct". */
  lemma TriggerSetIsDisagreement(v: Verdict)
    ensures VStr(VerdictName(v)) in RefineVerdicts <==> v != Correct
  {
  }

  /** The three shapes in which the evaluator may deliver an evaluation's `.dict()`:
      a model instance, the JSON text of its fields, or a plain dictionary. */
  predicate Delivers(raw: Value, loads: string -> Option<Value>, e: EvaluationResult) {
    || (raw.VModel? && raw.fields == EvaluationFields(e))
    || (raw.VStr? && loads(raw.s) == Some(VDict(EvaluationFields(e))))
    || raw == VDict(EvaluationFields(e))
  }

  /** However it is delivered, an evaluation's `.dict()` normalises to the same
      dictionary. */
  lemma DeliveryShapesNormaliseAlike(raw: Value, loads: string -> Option<Value>, e: EvaluationResult)
    requires Delivers(raw, loads, e)
    ensures NormaliseEvaluation(raw, loads) == VDict(EvaluationFields(e))
  {
  }

  /** An evaluation that normalises to any dictionary pydantic accepts as an
      EvaluationResult (optional keys left out and undeclared keys included) asks
      for refinement exactly when its verdict is not "Correct". */
  lemma WellFormedEvaluationDecides(raw: Value, loads: string -> Option<Value>,
                                    m: map<string, Value>, e: EvaluationResult)
    requires NormaliseEvaluation(raw, loads) == VDict(m) && ValidateEvaluation(m) == Some(e)
    ensures RefinementWanted(raw, loads) == Ok(e.verdict != Correct)
  {
    assert m["verdict"] == VStr(VerdictName(e.verdict));
  }

  /** A run whose classifier answers and whose evaluator's answer normalises to a
      valid evaluation calls the refinement stage if and only if the verdict is not
      "Correct"; on agreement it returns no refinement. */
  lemma RunRefinesIffEvaluatorDisagrees(email: string, st: Stages,
                                        m: map<string, Value>, e: EvaluationResult)
    requires Respond(st, ClassifyCall(email)).Ok?
    requires var c := Respond(st, ClassifyCall(email)).value;
             var ev := Respond(st, EvaluateCall(email, c));
             ev.Ok? && NormaliseEvaluation(ev.value, st.loads) == VDict(m)
    requires ValidateEvaluation(m) == Some(e)
    ensures |Run(email, st).calls| == 3 <==> e.verdict != Correct
    ensures e.verdict == Correct ==>
              var c := Respond(st, ClassifyCall(email)).value;
              Run(email, st).result == Ok(RunOutput(c, Respond(st, EvaluateCall(email, c)).value, VNone))
  {
    var c := Respond(st, ClassifyCall(email)).value;
    WellFormedEvaluationDecides(Respond(st, EvaluateCall(email, c)).value, st.loads, m, e);
  }

  /** Reading the verdict can only fail, and so abort the run, for an evaluator
      answer that is None, a boolean, a number, a list or another object, or for a
      string whose JSON decodes to something other than an object. Model instances,
      dictionaries and undecodable strings never make it fail. */
  lemma VerdictReadFailsOnlyOnNonMappings(raw: Value, loads: string -> Option<Value>)
    ensures RefinementWanted(raw, loads).Err? <==>
              || raw.VNone? || raw.VBool? || raw.VInt? || raw.VList? || raw.VObject?
              || (raw.VStr? && loads(raw.s).Some? && !loads(raw.s).value.VDict?)
  {
  }

  /** An evaluator answer that is a string JSON cannot decode is read as agreement:
      the run succeeds without refinement. */
  lemma DecodeFailureSkipsRefinement(email: string, st: Stages, text: string)
    requires Respond(st, ClassifyCall(email)).Ok?
    requires Respond(st, EvaluateCall(email, Respond(st, ClassifyCall(email)).value)) == Ok(VStr(text))
    requires st.loads(text) == None
    ensures var c := Respond(st, ClassifyCall(email)).value;
            Run(email, st) == Execution([ClassifyCall(email), EvaluateCall(email, c)],
                                        Ok(RunOutput(c, VStr(text), VNone)))
  {
  }

  /** A dictionary without a "verdict" key, or with any other verdict value, is read
      as agreement as well. */
  lemma OtherVerdictSkipsRefinement(email: string, st: Stages, evaluation: map<string, Value>)
    requires Respond(st, ClassifyCall(email)).Ok?
    requires Respond(st, EvaluateCall(email, Respond(st, ClassifyCall(email)).value)) == Ok(VDict(evaluation))
    requires "verdict" in evaluation ==> evaluation["verdict"] !in RefineVerdicts
    ensures |Run(email, st).calls| == 2
    ensures Run(email, st).result.Ok?
    ensures Run(email, st).result.value["refinement_output"] == VNone
  {
  }

  /** When the normalised evaluation is not a dictionary (the evaluator answered
      None, or JSON text of a list, a string, a number), reading its verdict raises
      and the whole run fails with the wrapped AttributeError. */
  lemma NonDictionaryEvaluationAborts(email: string, st: Stages)
    requires Respond(st, ClassifyCall(email)).Ok?
    requires var c := Respond(st, ClassifyCall(email)).value;
             var ev := Respond(st, EvaluateCall(email, c));
             ev.Ok? && !NormaliseEvaluation(ev.value, st.loads).VDict?
    ensures var c := Respond(st, ClassifyCall(email)).value;
            var ev := Respond(st, EvaluateCall(email, c)).value;
            Run(email, st) == Execution([ClassifyCall(email), EvaluateCall(email, c)],
                                        Err(CrewErrorPrefix + NoGetMessage(NormaliseEvaluation(ev, st.loads))))
  {
  }

  /** A refinement delivered as a Result model is returned as its `.dict()`, which
      validates back to the same Result. */
  lemma RefinedResultIsReturnedAsItsFields(className: string, r: Result)
    ensures RefinementView(VModel(className, ResultFields(r))) == VDict(ResultFields(r))
    ensures ValidateResult(RefinementView(VModel(className, ResultFields(r))).entries) == Some(r)
  {
  }

  /** Any value that is falsy is returned unchanged as the refinement output; no
      falsy value has a `dict` method. */
  lemma FalsyRefinementIsKept(refined: Value)
    requires !Truthy(refined)
    ensures RefinementView(refined) == refined
    ensures !HasDictMethod(refined)
  {
  }

  // ----------------------------------------------------- agreement with crew.py

  /** The keys a call's context must carry according to the task table: the email
      plus the output of every task the task declares as context. */
  function DeclaredContextKeys(t: TaskName): set<string> {
    {"email"} + OutputKeys(Describe(t).context)
  }

  /** The output keys of a list of tasks. */
  function OutputKeys(ts: seq<TaskName>): set<string> {
    if ts == [] then {} else {OutputKey(ts[0])} + OutputKeys(ts[1..])
  }

  /** Call `i` of an execution agrees with the task table: its context carries
      exactly the declared keys, each declared entry holds the raw answer of the
      earlier call of that task, and its model is the classification model exactly
      when its task outputs a Result. */
  ghost predicate FollowsTaskTable(x: Execution, st: Stages, i: nat)
    requires i < |x.calls|
  {
    && x.calls[i].context.Keys == DeclaredContextKeys(x.calls[i].task)
    && (AgentLlm(x.calls[i].agent) == ClassificationLlm <==> Describe(x.calls[i].task).output == ResultSchema)
    && forall t :: t in Describe(x.calls[i].task).context ==>
         && DeclarationIndex(t) < i && x.calls[DeclarationIndex(t)].task == t
         && OutputKey(t) in x.calls[i].context && Respond(st, x.calls[DeclarationIndex(t)]).Ok?
         && x.calls[i].context[OutputKey(t)] == Respond(st, x.calls[DeclarationIndex(t)]).value
  }

  /** One call of `run` at a time. */
  lemma CallFollowsTaskTable(email: string, st: Stages, i: nat)
    requires i < |Run(email, st).calls|
    ensures FollowsTaskTable(Run(email, st), st, i)
  {
    var x := Run(email, st);
    if i == 0 {
      assert x.calls[i] == ClassifyCall(email);
      assert DeclaredContextKeys(ClassificationTask) == {"email"};
    } else if i == 1 {
      assert x.calls[i] == EvaluateCall(email, Respond(st, x.calls[0]).value);
      assert DeclaredContextKeys(EvaluationTask) == {"email", "classification_output"};
    } else {
      assert x.calls[i] == RefineCall(email, Respond(st, x.calls[0]).value, Respond(st, x.calls[1]).value);
      assert DeclaredContextKeys(RefineClassificationTask)
          == {"email", "classification_output", "evaluation_output"};
    }
  }

  /** Every call `run` makes hands over exactly the context its task declares, each
      declared entry being the raw answer of the earlier call of that task, and the
      tasks whose output is a Result run on the classification model. */
  lemma RunCallsFollowTaskTable(email: string, st: Stages)
    ensures forall c :: c in Run(email, st).calls ==>
              c.context.Keys == DeclaredContextKeys(c.task)
    ensures forall c :: c in Run(email, st).calls ==>
              (AgentLlm(c.agent) == ClassificationLlm <==> Describe(c.task).output == ResultSchema)
    // in particular each declared context entry holds the raw answer of the earlier call of that task
    ensures forall i :: 0 <= i < |Run(email, st).calls| ==> FollowsTaskTable(Run(email, st), st, i)
  {
    var x := Run(email, st);
    forall i | 0 <= i < |x.calls|
      ensures FollowsTaskTable(x, st, i)
    {
      CallFollowsTaskTable(email, st, i);
    }
    forall c | c in x.calls
      ensures c.context.Keys == DeclaredContextKeys(c.task)
      ensures AgentLlm(c.agent) == ClassificationLlm <==> Describe(c.task).output == ResultSchema
    {
      var i :| 0 <= i < |x.calls| && x.calls[i] == c;
      assert FollowsTaskTable(x, st, i);
    }
  }

  /** `run_test` passes only the number of tests, although the task table lists the
      classification task as the test task's context. */
  lemma RunTestOmitsDeclaredContext(numTests: int, st: Stages)
    ensures |RunTest(numTests, st).calls| == 1
    ensures var c := RunTest(numTests, st).calls[0];
            && c.agent == Tester && AgentLlm(c.agent) == EvaluationLlm
            && c.context.Keys == {"num_tests"}
            && ClassificationTask in Describe(c.task).context
            && OutputKey(ClassificationTask) !in c.context
  {
  }

  // ---------------------------------------------------------------- the metrics

  /** The dictionaries of well-formed test cases yield, in order, the names of their
      expected and predicted categories. */
  lemma {:induction false} WellFormedCasesYieldCategoryLabels(ts: seq<TestCase>)
    ensures MetricsLabels(TestCaseValues(ts)).Ok?
    ensures var labels := MetricsLabels(TestCaseValues(ts)).value;
            && |labels.0| == |ts| && |labels.1| == |ts|
            && forall i :: 0 <= i < |ts| ==>
                 && labels.0[i] == VStr(CategoryName(ts[i].expected))
                 && labels.1[i] == VStr(CategoryName(ts[i].predicted))
                 && labels.0[i].s in CategoryNames && labels.1[i].s in CategoryNames
  {
  }

  // ---------------------------------------------------------------- scenarios

  /** A stage table answering with fixed models. */
  function FixedStages(classification: Result, evaluation: EvaluationResult, refinement: Result): Stages {
    Stages(
      (a: AgentName, t: TaskName, ctx: map<string, Value>) =>
        match t
        case ClassificationTask => Ok(VModel("Result", ResultFields(classification)))
        case EvaluationTask => Ok(VModel("EvaluationResult", EvaluationFields(evaluation)))
        case RefineClassificationTask => Ok(VModel("Result", ResultFields(refinement)))
        case TestClassificationTask => Err("unexpected"),
      (s: string) => None)
  }

  /** An evaluator that disagrees (the classifier said "To Read", the evaluator says
      "Urgent") makes the run refine, and the refinement is returned as a mapping. */
  lemma DisagreementScenario(email: string)
    ensures var c := Result(false, ToRead, "newsletter", None);
            var e := EvaluationResult(Incorrect, "deadline today", Urgent, false, None);
            var r := Result(false, Urgent, "deadline today", None);
            var x := Run(email, FixedStages(c, e, r));
            && |x.calls| == 3
            && x.calls[2].context["evaluation_output"] == VModel("EvaluationResult", EvaluationFields(e))
            && x.result == Ok(RunOutput(VModel("Result", ResultFields(c)),
                                        VModel("EvaluationResult", EvaluationFields(e)),
                                        VDict(ResultFields(r))))
  {
  }

  /** A stage that raises part-way aborts the run: the classification already
      obtained is not returned. */
  lemma EvaluationFailureScenario(email: string, c: Value, message: string)
    ensures var st := Stages((a: AgentName, t: TaskName, ctx: map<string, Value>) =>
                               if t == ClassificationTask then Ok(c) else Err(message),
                             (s: string) => None);
            Run(email, st) == Execution([ClassifyCall(email), EvaluateCall(email, c)],
                                        Err(CrewErrorPrefix + message))
  {
  }
}
