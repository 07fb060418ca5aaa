/** The static wiring of the project (ai/src/ai/crew.py): which language model each
    agent uses, which output schema and which context tasks each task declares, and
    the task list of the sequential crew. All of it is constant data; the lemmas state
    the wiring facts the pipeline relies on.
 */
module Crew {

  /** The two model handles built from the environment. */
  datatype Llm = ClassificationLlm | EvaluationLlm

  /** The three agents of the project. */
  datatype AgentName = Classifier | Evaluator | Tester

  /** The four tasks, in the order the project declares them. */
  datatype TaskName =
    | ClassificationTask
    | EvaluationTask
    | RefineClassificationTask
    | TestClassificationTask

  /** The pydantic output classes a task can demand. */
  datatype Schema = ResultSchema | EvaluationResultSchema | TestClassificationSchema

  /** What a task declares: its output schema and the tasks it takes as context. */
  datatype TaskDescriptor = TaskDescriptor(output: Schema, context: seq<TaskName>)

  datatype Process = Sequential

  datatype CrewDescriptor = CrewDescriptor(
    agents: seq<AgentName>,
    tasks: seq<TaskName>,
    process: Process)

  /** The model an agent is built with. */
  function AgentLlm(a: AgentName): Llm {
    match a
    case Classifier => ClassificationLlm
    case Evaluator => EvaluationLlm
    case Tester => EvaluationLlm
  }

  /** Position of a task's declaration in the project (0-based). */
  function DeclarationIndex(t: TaskName): nat {
    match t
    case ClassificationTask => 0
    case EvaluationTask => 1
    case RefineClassificationTask => 2
    case TestClassificationTask => 3
  }

  /** The descriptor of each task. Every context entry is declared before the task
      that uses it, which is what makes the context relation acyclic. */
  function Describe(t: TaskName): (d: TaskDescriptor)
    ensures forall u :: u in d.context ==> DeclarationIndex(u) < DeclarationIndex(t)
    ensures d.output == ResultSchema <==> t in {ClassificationTask, RefineClassificationTask}
  {
    match t
    case ClassificationTask =>
      TaskDescriptor(ResultSchema, [])
    case EvaluationTask =>
      TaskDescriptor(EvaluationResultSchema, [ClassificationTask])
    case RefineClassificationTask =>
      TaskDescriptor(ResultSchema, [ClassificationTask, EvaluationTask])
    case TestClassificationTask =>
      TaskDescriptor(TestClassificationSchema, [ClassificationTask])
  }

  /** The crew: three agents, three tasks, run one after the other. */
  const ProjectCrew: CrewDescriptor :=
    CrewDescriptor(
      [Classifier, Evaluator, Tester],
      [ClassificationTask, EvaluationTask, TestClassificationTask],
      Sequential)

  /** A chain of context edges: each task takes the next one as context. */
  ghost predicate IsContextChain(p: seq<TaskName>) {
    forall i :: 0 <= i < |p| - 1 ==> p[i + 1] in Describe(p[i]).context
  }

  /** Following context edges always leads to strictly earlier declarations. */
  lemma {:induction false} ContextChainDescends(p: seq<TaskName>)
    requires |p| >= 2 && IsContextChain(p)
    ensures DeclarationIndex(p[|p| - 1]) < DeclarationIndex(p[0])
  {
    assert p[1] in Describe(p[0]).context;
    if |p| > 2 {
      var q := p[1..];
      assert IsContextChain(q) by {
        forall i | 0 <= i < |q| - 1 ensures q[i + 1] in Describe(q[i]).context {
          assert q[i] == p[i + 1] && q[i + 1] == p[i + 2];
        }
      }
      ContextChainDescends(q);
    }
  }

  /** No task depends on itself through any chain of contexts. */
  lemma ContextIsAcyclic(p: seq<TaskName>)
    requires |p| >= 2 && IsContextChain(p)
    ensures p[0] != p[|p| - 1]
  {
    ContextChainDescends(p);
  }

  /** The context wiring of each task: classification takes none, evaluation and test
      generation take the classification, refinement takes classification then
      evaluation, in that order. */
  lemma ContextWiring()
    ensures Describe(ClassificationTask).context == []
    ensures Describe(EvaluationTask).context == [ClassificationTask]
    ensures Describe(RefineClassificationTask).context == [ClassificationTask, EvaluationTask]
    ensures Describe(TestClassificationTask).context == [ClassificationTask]
  {
  }

  /** The output schema of each task. */
  lemma OutputWiring()
    ensures Describe(ClassificationTask).output == ResultSchema
    ensures Describe(EvaluationTask).output == EvaluationResultSchema
    ensures Describe(RefineClassificationTask).output == ResultSchema
    ensures Describe(TestClassificationTask).output == TestClassificationSchema
  {
  }

  /** The classifier works on the classification model; the evaluator and the tester
      share the evaluation model. */
  lemma LlmAssignment(a: AgentName)
    ensures AgentLlm(a) == ClassificationLlm <==> a == Classifier
  {
  }

  /** The crew runs sequentially, every task's context lies strictly earlier in the
      crew's task list, and the refinement task is not part of the crew. */
  lemma CrewOrderRespectsContext()
    ensures ProjectCrew.process == Sequential
    ensures RefineClassificationTask !in ProjectCrew.tasks
    ensures forall t :: t in ProjectCrew.tasks <==> t != RefineClassificationTask
    ensures forall a :: a in ProjectCrew.agents
    ensures forall i, u :: 0 <= i < |ProjectCrew.tasks| && u in Describe(ProjectCrew.tasks[i]).context
              ==> u in ProjectCrew.tasks[..i]
  {
    var ts := ProjectCrew.tasks;
    assert ts[..1] == [ClassificationTask];
    forall t ensures t in ts <==> t != RefineClassificationTask {
      match t
      case ClassificationTask => assert ts[0] == t;
      case EvaluationTask => assert ts[1] == t;
      case RefineClassificationTask =>
      case TestClassificationTask => assert ts[2] == t;
    }
    forall a ensures a in ProjectCrew.agents {
      match a
      case Classifier => assert ProjectCrew.agents[0] == a;
      case Evaluator => assert ProjectCrew.agents[1] == a;
      case Tester => assert ProjectCrew.agents[2] == a;
    }
  }

  /** Refinement depends, transitively, on both earlier stages and on nothing else. */
  lemma RefinementDependsOnBothStages(p: seq<TaskName>)
    requires |p| >= 2 && IsContextChain(p) && p[0] == RefineClassificationTask
    ensures p[|p| - 1] in {ClassificationTask, EvaluationTask}
  {
    ContextChainDescends(p);
  }
}
