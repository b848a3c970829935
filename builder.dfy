// The workflow graph (graph/builder.py): the nodes, the declared edges, and the
// conditional edge that picks the agent for the next unfinished sub-question.
module Builder {
  import opened Wrappers
  import opened DecomposerModel

  /** The sub-question objects of a plan slot; a text or a missing plan has none. */
  function QuestionsOf(slot: PlanSlot): seq<SubQuestion>
  {
    if slot.PlanObject? then slot.plan.questions else []
  }

  /** `not question.execution_res`: no result yet, or an empty one. */
  predicate Unfinished(q: SubQuestion)
    reads q
  {
    q.executionRes.None? || q.executionRes == Some("")
  }

  /** The first unfinished question. */
  function FirstUnfinished(qs: seq<SubQuestion>): (r: Option<nat>)
    reads qs
    ensures r.Some? ==> r.value < |qs| && Unfinished(qs[r.value])
    ensures r.Some? ==> forall j :: 0 <= j < r.value ==> !Unfinished(qs[j])
    ensures r.None? ==> forall j :: 0 <= j < |qs| ==> !Unfinished(qs[j])
    decreases |qs|
  {
    if |qs| == 0 then None
    else if Unfinished(qs[0]) then Some(0)
    else match FirstUnfinished(qs[1..])
      case Some(i) => Some(i + 1)
      case None => None
  }

  /** The agent node for a step type; an unknown type goes to the researcher. */
  function AgentFor(stepType: string): (r: string)
    ensures r in {"researcher", "analyst", "coder"}
    ensures ParseTaskType(stepType) == Some(Analysis) <==> r == "analyst"
    ensures ParseTaskType(stepType) == Some(Processing) <==> r == "coder"
  {
    if stepType == "research" then "researcher"
    else if stepType == "analysis" then "analyst"
    else if stepType == "processing" then "coder"
    else "researcher"
  }

  /** `continue_to_running_research_team`: the agent for the first unfinished question,
      and "reporter" when every question has a result (or there is no plan object). */
  function ContinueToRunningResearchTeam(slot: PlanSlot): (r: string)
    reads QuestionsOf(slot)
    ensures r in ConditionalTargets
    ensures r == "reporter" <==> forall j :: 0 <= j < |QuestionsOf(slot)| ==> !Unfinished(QuestionsOf(slot)[j])
    ensures FirstUnfinished(QuestionsOf(slot)).Some? ==>
      r == AgentFor(QuestionsOf(slot)[FirstUnfinished(QuestionsOf(slot)).value].stepType)
  {
    var qs := QuestionsOf(slot);
    if |qs| == 0 then "reporter"
    else match FirstUnfinished(qs)
      case Some(i) => AgentFor(qs[i].stepType)
      case None => "reporter"
  }

  /** A question with an empty-string result is still unfinished and routes to its agent. */
  lemma EmptyResultIsUnfinished(slot: PlanSlot)
    requires |QuestionsOf(slot)| > 0 && QuestionsOf(slot)[0].executionRes == Some("")
    ensures ContinueToRunningResearchTeam(slot) == AgentFor(QuestionsOf(slot)[0].stepType)
  {
    assert FirstUnfinished(QuestionsOf(slot)) == Some(0);
  }

  // ---------------------------------------------------------------------------
  // The graph.

  const Start := "__start__"
  const End := "__end__"

  /** The node functions, one per Python function registered. */
  datatype NodeFunction = Coordinator | BackgroundInvestigation | QuestionDecomposer | HumanFeedback
                        | ResearchTeam | ResearcherAgent | AnalystAgent | CoderAgent | Reporter

  /** The registered node names and the function registered under each. */
  const NodeMap: map<string, NodeFunction> := map[
    "coordinator" := Coordinator,
    "background_investigator" := BackgroundInvestigation,
    "question_decomposer" := QuestionDecomposer,
    "decomposer" := QuestionDecomposer,
    "human_feedback" := HumanFeedback,
    "research_team" := ResearchTeam,
    "researcher" := ResearcherAgent,
    "analyst" := AnalystAgent,
    "coder" := CoderAgent,
    "reporter" := Reporter]

  /** The static edges, as declared. */
  const StaticEdges: seq<(string, string)> := [
    (Start, "coordinator"),
    ("background_investigator", "decomposer"),
    ("question_decomposer", "human_feedback"),
    ("decomposer", "human_feedback"),
    ("human_feedback", "research_team"),
    ("researcher", "research_team"),
    ("analyst", "research_team"),
    ("coder", "research_team"),
    ("reporter", End)]

  /** The path map of the conditional edge out of research_team. */
  const ConditionalTargets: set<string> := {"researcher", "analyst", "coder", "reporter"}

  /** The successors of a node through declared edges. */
  function Successors(n: string): (r: set<string>)
    ensures forall m :: m in r ==> m in NodeMap || m == End
  {
    (set i | 0 <= i < |StaticEdges| && StaticEdges[i].0 == n :: StaticEdges[i].1) +
    (if n == "research_team" then ConditionalTargets else {})
  }

  /** Every declared edge joins registered nodes (or the entry and exit points), the two
      decomposer names run the same function, and START leads only to the coordinator. */
  lemma GraphWellFormed()
    ensures forall i :: 0 <= i < |StaticEdges| ==>
      (StaticEdges[i].0 in NodeMap || StaticEdges[i].0 == Start) &&
      (StaticEdges[i].1 in NodeMap || StaticEdges[i].1 == End)
    ensures NodeMap["question_decomposer"] == NodeMap["decomposer"]
    ensures Successors(Start) == {"coordinator"}
    ensures Successors("reporter") == {End}
  {
    assert StaticEdges[0].1 in Successors(Start);
    assert StaticEdges[8].1 in Successors("reporter");
  }

  /** Every agent returns to research_team, and research_team reaches END through the
      reporter: the research loop has an exit. */
  lemma ResearchLoopExits()
    ensures forall a :: a in {"researcher", "analyst", "coder"} ==> Successors(a) == {"research_team"}
    ensures "reporter" in Successors("research_team") && End in Successors("reporter")
  {
    assert StaticEdges[5].1 in Successors("researcher");
    assert StaticEdges[6].1 in Successors("analyst");
    assert StaticEdges[7].1 in Successors("coder");
    assert StaticEdges[8].1 in Successors("reporter");
  }
}
