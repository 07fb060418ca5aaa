# Email classification pipeline — a Dafny model

This project models the core of an email classifier that chains language-model
calls. First a classifier agent labels an email as "Spam", "Urgent", "Not Urgent" or
"To Read". Next an evaluator agent judges that label. When the evaluator's verdict
is "Incorrect" or "Partially correct", the classifier refines its answer with both
earlier outputs as context. A separate path asks a tester agent for synthetic test
cases, and a metrics step pulls out their expected and predicted labels.

The model has five modules:

- `Values` (values.dfy) models the dynamically typed values that stages pass to each other. These are pydantic model objects, strings that may hold JSON, dictionaries, lists, `None` and other objects. The module also models the Python operations the orchestrator applies to them: truthiness, `hasattr(v, "dict")`, `.dict()`, `.get(key)` and `v[key]`.
- `Schemas` (schemas.dfy) covers `Result`, `EvaluationResult`, `TestCase` and `TestClassification` as datatypes. Their `Literal` fields become closed enumerations. Each class has its `.dict()` mapping (`...Fields`) and its pydantic construction from a mapping (`Validate...`). For every class, validating a value's `.dict()` gives back the value. In the other direction, each validator's contract says that the validated value agrees with the input on every declared field the input gives. A declared optional field that the input leaves out reads as None. For TestClassification the `tests` list is validated element by element.
- `Crew` (crew.dfy) is the constant table of agents, models, tasks, output schemas and task contexts. It proves that the context relation is acyclic and that the crew's task order respects it.
- `Pipeline` (pipeline.dfy) models main.py: it has `Run`, `RunTest` and `MetricsLabels`. The language-model call `agent.execute_task` is the uninterpreted oracle `Stages.execute`. `json.loads` is the partial function `Stages.loads`. `Run` and `RunTest` return an `Execution`: the list of calls made, plus either the result mapping or the wrapped error message. `MetricsLabels` returns an `Outcome` holding the two label lists or the lookup error.
- `PipelineFacts` (pipeline_facts.dfy) relates the orchestration to the schemas and to the task table. Examples: refinement happens iff a well-formed verdict is not "Correct", and every call `run` makes carries exactly the context its task declares (the call `run_test` makes does not).

Behaviour that the code has and that one might not expect (the model follows the code):

- Reading the verdict calls `.get` on the normalised evaluation. If the evaluator answers `None`, or JSON text that decodes to something other than an object (a list, a string, a number, `null`), `.get` raises `AttributeError`. The whole run then fails with the wrapped message (`NonDictionaryEvaluationAborts`). Only a string that fails to decode falls back to the empty dictionary.
- A missing verdict, or any verdict string other than the two disagreeing ones, is read as agreement (`DecodeFailureSkipsRefinement`, `OtherVerdictSkipsRefinement`).
- `refinement_output` can be `None` or another falsy value even when refinement ran, because the refine stage's answer is returned as it came unless it is a model (`FalsyRefinementIsKept`).
- The classification output is never decoded or validated. It is handed on and returned exactly as the stage produced it.
- `run_test` passes only `num_tests`, although the test task lists the classification task as its context (`RunTestOmitsDeclaredContext`). It does not check that `num_tests` is positive or that the batch has that many cases.
- `compute_metrics` has no `try`. A case without `expected` or `predicted` raises `KeyError`, and a case that is not a dictionary raises `TypeError`. Either error reaches the caller unwrapped.
- No schema ties `spam` to `category`, `success` to `expected == predicted`, or `score` to the tests (`ResultHasNoCrossFieldCheck`, `SuccessIsNotChecked`, `ScoreIsNotChecked`).

## Model

| member | source | states |
|---|---|---|
| Values.Get | ai/src/ai/main.py:70 | `v.get(key)` succeeds exactly on dictionaries and yields `None` for a missing key; on any other value it raises the AttributeError naming the value's type |
| Values.Subscript | ai/src/ai/main.py:125-126 | `case[key]` yields the entry of a dictionary that has the key. A dictionary without it raises KeyError, and every other value raises TypeError |
| Schemas.CategoryName | ai/src/ai/dataClasses.py:15 | every category is written as one of the four literals |
| Schemas.ParseCategory | ai/src/ai/dataClasses.py:15 | a string is accepted as a category iff it is one of "Spam", "Urgent", "Not Urgent", "To Read", and the category accepted is written as that same string |
| Schemas.VerdictName | ai/src/ai/dataClasses.py:31 | every verdict is written as one of the three literals |
| Schemas.ParseVerdict | ai/src/ai/dataClasses.py:31 | a string is accepted as a verdict iff it is "Correct", "Incorrect" or "Partially correct", and the verdict accepted is written as that string |
| Schemas.LiteralRoundTrip | ai/src/ai/dataClasses.py:31-33 | parsing inverts naming for categories and verdicts, and naming is injective |
| Schemas.ValidateResult | ai/src/ai/dataClasses.py:14-17 | a valid Result needs `spam`, `category`, `reasoning`. Its category is one of the four literals. The validated model's dict agrees with the input on the required fields and on a given `suggested_response`; a missing one defaults to None |
| Schemas.ResultRoundTrip | ai/src/ai/dataClasses.py:4-17 | re-validating a Result's `.dict()` gives back the same Result |
| Schemas.ResultIgnoresExtraKeys | ai/src/ai/dataClasses.py:4-17 | keys Result does not declare have no effect on validation |
| Schemas.ResultHasNoCrossFieldCheck | ai/src/ai/dataClasses.py:14-15 | any combination of `spam`, category and reasoning validates, including `spam = false` with category "Spam", with `suggested_response` None |
| Schemas.ValidateEvaluation | ai/src/ai/dataClasses.py:31-35 | a mapping is accepted exactly when its verdict, explanation, evaluator classification and evaluator spam flag read as their types and a given `suggested_correction` is a string or None. A valid EvaluationResult therefore needs verdict, explanation, evaluator classification and evaluator spam flag. The verdict and the classification are literals of their sets. The dict agrees with the input on those fields and on a given `suggested_correction`; a missing one defaults to None |
| Schemas.EvaluationRoundTrip | ai/src/ai/dataClasses.py:20-35 | re-validating an EvaluationResult's `.dict()` gives back the same value |
| Schemas.EvaluationIgnoresExtraKeys | ai/src/ai/dataClasses.py:20-35 | keys EvaluationResult does not declare have no effect on validation |
| Schemas.CorrectionIsOptional | ai/src/ai/dataClasses.py:35 | an EvaluationResult's fields without `suggested_correction` still validate, to the same value with that field None |
| Schemas.ValidateTestCase | ai/src/ai/dataClasses.py:48-52 | a mapping is accepted exactly when its email, expected, predicted and success read as their types and a given `reasoning` is a string or None. A valid TestCase therefore needs email, expected, predicted, success. Both labels are category literals. The dict agrees with the input on those fields and on a given `reasoning`; a missing one defaults to None |
| Schemas.TestCaseRoundTrip | ai/src/ai/dataClasses.py:37-52 | re-validating a TestCase's `.dict()` gives back the same TestCase |
| Schemas.TestCaseIgnoresExtraKeys | ai/src/ai/dataClasses.py:37-52 | keys TestCase does not declare have no effect on validation |
| Schemas.ReasoningIsOptional | ai/src/ai/dataClasses.py:52 | a TestCase's fields without `reasoning` still validate, to the same TestCase with `reasoning` None |
| Schemas.SuccessIsNotChecked | ai/src/ai/dataClasses.py:48-51 | `success` may be true or false whatever the two labels are |
| Schemas.ValidateTestCases | ai/src/ai/dataClasses.py:64 | a list of test cases validates iff every element is a dictionary that validates; the result keeps length and order, element by element |
| Schemas.ValidateTestClassification | ai/src/ai/dataClasses.py:64-66 | a batch validates iff `tests` is a list whose every element validates, `score` is an int and `suggestion` is absent, None or a string. Its tests are the element-by-element validation of the list. It keeps the score and a given suggestion; a missing suggestion defaults to None |
| Schemas.TestCasesRoundTrip | ai/src/ai/dataClasses.py:64 | re-validating the dict view of any list of test cases gives back the list |
| Schemas.TestClassificationRoundTrip | ai/src/ai/dataClasses.py:55-66 | re-validating a batch's `.dict()`, nested cases included, gives back the batch |
| Schemas.ScoreIsNotChecked | ai/src/ai/dataClasses.py:64-65 | any list of tests validates with any integer score, unrelated to the number of tests or successes |
| Crew.Describe | ai/src/ai/crew.py:82-138 | every task's context lists only tasks declared before it; exactly the classification and refinement tasks output a Result |
| Crew.ContextChainDescends | ai/src/ai/crew.py:103-138 | following context edges always reaches strictly earlier tasks |
| Crew.ContextIsAcyclic | ai/src/ai/crew.py:103-138 | no chain of contexts leads from a task back to itself |
| Crew.ContextWiring | ai/src/ai/crew.py:90-138 | classification has no context; evaluation and test generation take the classification; refinement takes classification then evaluation |
| Crew.OutputWiring | ai/src/ai/crew.py:90-138 | classification and refinement output Result, evaluation outputs EvaluationResult, test generation outputs TestClassification |
| Crew.LlmAssignment | ai/src/ai/crew.py:47-80 | an agent uses the classification model iff it is the classifier; evaluator and tester use the evaluation model |
| Crew.CrewOrderRespectsContext | ai/src/ai/crew.py:148-161 | the crew is sequential, holds all three agents, holds every task except the refinement task, and every task's context lies earlier in its task list |
| Crew.RefinementDependsOnBothStages | ai/src/ai/crew.py:117-124 | every task the refinement depends on, directly or transitively, is the classification or the evaluation task |
| Pipeline.NormaliseEvaluation | ai/src/ai/main.py:57-66 | a model becomes its `.dict()`, an undecodable string the empty dictionary, a decodable string its decoded value, anything else itself. The result is a dictionary iff the input is a model or a dictionary, or a string that fails to decode or decodes to an object |
| Pipeline.RefinementWanted | ai/src/ai/main.py:57-70 | reading the verdict succeeds iff the normalised evaluation is a dictionary, and then asks for refinement iff its `verdict` entry exists and is "Incorrect" or "Partially correct"; otherwise it raises the AttributeError of `.get` |
| Pipeline.RefinementView | ai/src/ai/main.py:81 | a model refinement is returned as its `.dict()`; every other value is returned unchanged |
| Pipeline.Run | ai/src/ai/main.py:11-85 | the classification task runs first and only once, with only the email. The evaluator is called iff that succeeded, with the email and the raw classification. The refine call happens iff the evaluation answered and asks for refinement, and goes to the classifier with the email and both raw outputs. Success returns exactly three keys: the first two outputs unchanged, and the refinement (or None). Any raised error aborts with the wrapped message, and a failed `.get` on the verdict makes the run fail with it |
| Pipeline.RunTest | ai/src/ai/main.py:88-112 | exactly one tester call with context `{"num_tests": n}`; its answer is returned unchanged under `test_output`, or its error wrapped |
| Pipeline.Column | ai/src/ai/main.py:125-126 | the list comprehension succeeds iff every case has the key, keeps length and order, and otherwise raises the first failing case's error |
| Pipeline.MetricsLabels | ai/src/ai/main.py:115-126 | the expected and predicted lists succeed iff every case is a dictionary with both keys; both have the cases' length and order; on dictionaries the only errors are the two KeyErrors. The `expected` list is built first: if any case fails on `expected`, the error is the first such case's (a KeyError, or a TypeError for a non-dictionary); only when every case has `expected` is the error the first failure on `predicted` |
| PipelineFacts.TriggerSetIsDisagreement | ai/src/ai/main.py:70 | a verdict literal triggers refinement iff the verdict is not "Correct" |
| PipelineFacts.DeliveryShapesNormaliseAlike | ai/src/ai/main.py:57-66 | an evaluation's `.dict()` delivered as a model, as decodable JSON text or as a dictionary normalises to the same dictionary |
| PipelineFacts.WellFormedEvaluationDecides | ai/src/ai/main.py:57-70 | an evaluator answer that normalises to any dictionary validating as an EvaluationResult asks for refinement iff its verdict is not "Correct". This includes dictionaries without the optional key and with undeclared keys |
| PipelineFacts.VerdictReadFailsOnlyOnNonMappings | ai/src/ai/main.py:57-70 | reading the verdict fails iff the answer is None, a bool, a number, a list or another object, or a string whose JSON is not an object |
| PipelineFacts.RunRefinesIffEvaluatorDisagrees | ai/src/ai/main.py:69-81 | when the evaluator's answer normalises to any dictionary that validates as an EvaluationResult, the refinement stage runs iff the verdict is not "Correct"; on "Correct" the run returns both outputs and no refinement |
| PipelineFacts.DecodeFailureSkipsRefinement | ai/src/ai/main.py:60-64 | an evaluation string that fails to decode leads to a successful run with two calls and no refinement |
| PipelineFacts.OtherVerdictSkipsRefinement | ai/src/ai/main.py:69-70 | a dictionary evaluation with a missing or non-disagreeing verdict leads to a successful run without refinement |
| PipelineFacts.NonDictionaryEvaluationAborts | ai/src/ai/main.py:65-85 | an evaluation that does not normalise to a dictionary aborts the run after two calls with the wrapped AttributeError |
| PipelineFacts.RefinedResultIsReturnedAsItsFields | ai/src/ai/main.py:81 | a Result refinement is returned as its `.dict()`, which validates back to the same Result |
| PipelineFacts.FalsyRefinementIsKept | ai/src/ai/main.py:81 | a falsy refinement answer is returned unchanged and has no `dict` method |
| PipelineFacts.CallFollowsTaskTable | ai/src/ai/main.py:39-76 | one call of a run at a time: its context keys are the declared ones, each declared entry is the raw answer of the earlier call of that task, and its model matches its output schema |
| PipelineFacts.RunCallsFollowTaskTable | ai/src/ai/main.py:39-76 | every call of a run carries exactly the email plus one key per task its task declares as context; each such entry is the raw answer of the earlier call of that declared task. Every call runs on the classification model iff its task outputs a Result |
| PipelineFacts.RunTestOmitsDeclaredContext | ai/src/ai/main.py:104-109 | the tester call runs on the evaluation model with only `num_tests`, without the classification output its task declares |
| PipelineFacts.WellFormedCasesYieldCategoryLabels | ai/src/ai/main.py:125-126 | the dicts of well-formed test cases yield, in order, their expected and predicted category names, all among the four literals |
| PipelineFacts.DisagreementScenario | ai/src/ai/main.py:39-82 | a "To Read" classification judged "Incorrect" is refined, the refine call sees the raw evaluation, and the refined Result is returned as a mapping |
| PipelineFacts.EvaluationFailureScenario | ai/src/ai/main.py:46-85 | an evaluator failure aborts the run with only the wrapped message; the classification obtained is not returned |

## Left out

- The language-model calls (`execute_task`) and the internals of the agent, task and crew library: foreign code with network I/O. They are modelled only as the oracle `Stages.execute`.
- Loading `.env` and building the two model handles (ai/src/ai/crew.py:8-24): environment I/O. A missing model name is not checked by the source either.
- The YAML agent and task configurations (ai/src/ai/crew.py:36-37): their content is not part of this model. The model assumes that constructing the project and its agents and tasks succeeds.
- `classification_report` (ai/src/ai/main.py:129): a statistics library call with floating-point precision, recall and F1. Only the label extraction before it is modelled.
- `json.loads`: abstracted as the partial function `Stages.loads`. Its result may be any value.
- The Streamlit interfaces ai/src/ai/ui.py and src/ai/ui.py: rendering and widgets. src/ai/crew.py is an identical copy of ai/src/ai/crew.py and is modelled once.
- The warnings filter (ai/src/ai/main.py:8): it has no effect on results.
- Schemas.ValidateResult: accepts exactly typed values only. Pydantic's lax coercions (for example `"true"` or `1` for a bool) are not modelled.
- Schemas.ValidateEvaluation: same restriction to exactly typed values.
- Schemas.ValidateTestCase: same restriction to exactly typed values.
- Schemas.ValidateTestClassification: same restriction to exactly typed values (for example a `score` of `"3"` is rejected).
- Schemas.ValidateTestCases: accepts only dictionaries as list elements. Pydantic would also accept TestCase instances.
- Pipeline.MetricsLabels: the exact texts of the KeyError and TypeError messages are abstracted to the missing key and the type name.
