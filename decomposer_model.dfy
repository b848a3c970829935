// The plan the decomposer produces (prompt/decomposer_model.py): task types, sub-questions
// and the decomposition result, with the pydantic validation that builds them from JSON.
module DecomposerModel {
  import opened Wrappers
  import opened Strings
  import opened Values

  /** `TaskType`: a string enum with exactly three members. */
  datatype TaskType = Research | Analysis | Processing

  /** The enum's value. */
  function TaskTypeName(t: TaskType): (r: string)
    ensures r in TaskTypeNames
  {
    match t
    case Research => "research"
    case Analysis => "analysis"
    case Processing => "processing"
  }

  const TaskTypeNames: seq<string> := ["research", "analysis", "processing"]

  /** `TaskType(s)`: only the three values are members. */
  function ParseTaskType(s: string): (r: Option<TaskType>)
  {
    if s == "research" then Some(Research)
    else if s == "analysis" then Some(Analysis)
    else if s == "processing" then Some(Processing)
    else None
  }

  /** A text names a task type exactly when it is one of the three values, and then
      the type's value is that text. */
  lemma ParseTaskTypeSpec(s: string)
    ensures ParseTaskType(s).Some? <==> s in TaskTypeNames
    ensures ParseTaskType(s).Some? ==> TaskTypeName(ParseTaskType(s).value) == s
  {
  }

  lemma TaskTypeRoundTrip(t: TaskType)
    ensures ParseTaskType(TaskTypeName(t)) == Some(t)
  {
  }

  /** A sub-question object. Steps update `executionRes` in place. `stepType` holds
      the enum's value as text, because the dispatchers compare it with strings. */
  class SubQuestion {
    var question: string
    var description: string
    var stepType: string
    var needSearch: bool
    var executionRes: Option<string>

    constructor(question: string, description: string, stepType: string, needSearch: bool,
                executionRes: Option<string>)
      ensures this.question == question && this.description == description
      ensures this.stepType == stepType && this.needSearch == needSearch
      ensures this.executionRes == executionRes
    {
      this.question := question;
      this.description := description;
      this.stepType := stepType;
      this.needSearch := needSearch;
      this.executionRes := executionRes;
    }
  }

  /** `DecompositionResult`: the plan, holding its sub-question objects. */
  datatype Plan = Plan(locale: string, hasEnoughContext: bool, thought: string, title: string,
                       questions: seq<SubQuestion>)

  /** What the state's `son_questions` may hold: nothing, a text, or a plan object. */
  datatype PlanSlot = NoPlan | PlanText(text: string) | PlanObject(plan: Plan)

  /** The field values of one sub-question, as validation produces them. */
  datatype QuestionFields = QuestionFields(question: string, description: string, stepType: TaskType,
                                           needSearch: bool, executionRes: Option<string>)

  /** The field values of a plan. */
  datatype PlanFields = PlanFields(locale: string, hasEnoughContext: bool, thought: string,
                                   title: string, questions: seq<QuestionFields>)

  /** Whether one object holds the given field values. */
  predicate HoldsOne(q: SubQuestion, f: QuestionFields)
    reads q
  {
    q.question == f.question && q.description == f.description &&
    q.stepType == TaskTypeName(f.stepType) && q.needSearch == f.needSearch &&
    q.executionRes == f.executionRes
  }

  /** Whether the objects hold exactly the given field values, in order. */
  predicate Holds(qs: seq<SubQuestion>, fs: seq<QuestionFields>)
    reads qs
  {
    |qs| == |fs| && forall i :: 0 <= i < |qs| ==> HoldsOne(qs[i], fs[i])
  }

  /** Whether a plan object holds the given plan fields. */
  predicate Built(p: Plan, f: PlanFields)
    reads p.questions
  {
    p.locale == f.locale && p.hasEnoughContext == f.hasEnoughContext &&
    p.thought == f.thought && p.title == f.title && Holds(p.questions, f.questions)
  }

  // ---------------------------------------------------------------------------
  // Validation of JSON input (pydantic's default, "lax" mode).

  /** A `bool` field: booleans, the numbers 0 and 1, and the usual words in any case. */
  function LaxBool(v: Value): (r: Option<bool>)
    ensures v.Bool? ==> r == Some(v.b)
  {
    match v
    case Bool(b) => Some(b)
    case Num(x) => if x == 0.0 then Some(false) else if x == 1.0 then Some(true) else None
    case Str(s) =>
      var l := Lower(s);
      if l in ["0", "off", "f", "false", "n", "no"] then Some(false)
      else if l in ["1", "on", "t", "true", "y", "yes"] then Some(true)
      else None
    case _ => None
  }

  /** A required `str` field. */
  function RequiredText(d: seq<(string, Value)>, k: string): Result<string, string>
  {
    match Lookup(d, k)
    case Some(Str(s)) => Ok(s)
    case Some(_) => Err(k + ": Input should be a valid string")
    case None => Err(k + ": Field required")
  }

  /** A required `bool` field. */
  function RequiredBool(d: seq<(string, Value)>, k: string): Result<bool, string>
  {
    match Lookup(d, k)
    case None => Err(k + ": Field required")
    case Some(v) => if LaxBool(v).Some? then Ok(LaxBool(v).value) else Err(k + ": Input should be a valid boolean")
  }

  function ValidQuestion(v: Value): (r: Result<QuestionFields, string>)
  {
    if !v.Dict? then Err("Input should be a valid dictionary")
    else
      var d := v.entries;
      var question :- RequiredText(d, "question");
      var description :- RequiredText(d, "description");
      var stepName :- RequiredText(d, "step_type");
      var stepType :- (match ParseTaskType(stepName)
                         case Some(t) => Ok(t)
                         case None => Err("step_type: Input should be 'research', 'analysis' or 'processing'"));
      var needSearch :- RequiredBool(d, "need_search");
      var executionRes :- (match Lookup(d, "execution_res")
                             case None => Ok(None)
                             case Some(Null) => Ok(None)
                             case Some(Str(s)) => Ok(Some(s))
                             case Some(_) => Err("execution_res: Input should be a valid string"));
      Ok(QuestionFields(question, description, stepType, needSearch, executionRes))
  }

  function ValidQuestions(items: seq<Value>): (r: Result<seq<QuestionFields>, string>)
    ensures r.Ok? ==> |r.value| == |items|
    decreases |items|
  {
    if |items| == 0 then Ok([])
    else
      var init :- ValidQuestions(items[..|items| - 1]);
      var last :- ValidQuestion(items[|items| - 1]);
      Ok(init + [last])
  }

  /** `DecompositionResult.model_validate(v)`: `locale`, `has_enough_context` and `title`
      are required, `thought` defaults to "" and `questions` to []; other keys are ignored. */
  function ValidPlan(v: Value): (r: Result<PlanFields, string>)
  {
    if !v.Dict? then Err("Input should be a valid dictionary")
    else
      var d := v.entries;
      var locale :- RequiredText(d, "locale");
      var hasEnough :- RequiredBool(d, "has_enough_context");
      var thought :- (match Lookup(d, "thought")
                        case None => Ok("")
                        case Some(Str(s)) => Ok(s)
                        case Some(_) => Err("thought: Input should be a valid string"));
      var title :- RequiredText(d, "title");
      var questions :- (match Lookup(d, "questions")
                          case None => Ok([])
                          case Some(List(items)) => ValidQuestions(items)
                          case Some(_) => Err("questions: Input should be a valid list"));
      Ok(PlanFields(locale, hasEnough, thought, title, questions))
  }

  /** A plan lacking `locale` or `title` fails validation. */
  lemma ValidPlanNeedsLocaleAndTitle(v: Value)
    requires v.Dict? && (!HasKey(v.entries, "locale") || !HasKey(v.entries, "title"))
    ensures ValidPlan(v).Err?
  {
    LookupSomeIffHasKey(v.entries, "locale");
    LookupSomeIffHasKey(v.entries, "title");
  }

  /** A validated plan's fields are the input's: the required ones as given, `thought` and
      `questions` defaulted only when absent. */
  lemma ValidPlanFields(v: Value)
    requires ValidPlan(v).Ok?
    ensures v.Dict?
    ensures Lookup(v.entries, "locale") == Some(Str(ValidPlan(v).value.locale))
    ensures Lookup(v.entries, "title") == Some(Str(ValidPlan(v).value.title))
    ensures !HasKey(v.entries, "thought") ==> ValidPlan(v).value.thought == ""
    ensures !HasKey(v.entries, "questions") ==> ValidPlan(v).value.questions == []
  {
    LookupSomeIffHasKey(v.entries, "thought");
    LookupSomeIffHasKey(v.entries, "questions");
  }

  /** `model_validate` builds fresh sub-question objects holding the validated fields. */
  method ModelValidate(v: Value) returns (r: Result<Plan, string>)
    ensures r.Ok? <==> ValidPlan(v).Ok?
    ensures r.Err? ==> r.error == ValidPlan(v).error
    ensures r.Ok? ==> Built(r.value, ValidPlan(v).value)
    ensures r.Ok? ==> forall i :: 0 <= i < |r.value.questions| ==> fresh(r.value.questions[i])
  {
    var f := ValidPlan(v);
    if f.Err? {
      return Err(f.error);
    }
    var fs := f.value.questions;
    var qs: seq<SubQuestion> := [];
    var i := 0;
    while i < |fs|
      invariant 0 <= i <= |fs|
      invariant |qs| == i
      invariant forall j :: 0 <= j < i ==> HoldsOne(qs[j], fs[j])
      invariant forall j :: 0 <= j < i ==> fresh(qs[j])
    {
      var q := new SubQuestion(fs[i].question, fs[i].description, TaskTypeName(fs[i].stepType),
                               fs[i].needSearch, fs[i].executionRes);
      qs := qs + [q];
      i := i + 1;
    }
    r := Ok(Plan(f.value.locale, f.value.hasEnoughContext, f.value.thought, f.value.title, qs));
  }

  // ---------------------------------------------------------------------------
  // `model_dump`: the plan back as a JSON-shaped value.

  const QuestionKeys: seq<string> := ["question", "description", "step_type", "need_search", "execution_res"]
  const PlanKeys: seq<string> := ["locale", "has_enough_context", "thought", "title", "questions"]

  function QuestionDump(q: QuestionFields): Value
  {
    Dict(Zip(QuestionKeys, [Str(q.question), Str(q.description), Str(TaskTypeName(q.stepType)),
                            Bool(q.needSearch), OptStr(q.executionRes)]))
  }

  function QuestionDumps(qs: seq<QuestionFields>): (r: seq<Value>)
    ensures |r| == |qs|
  {
    if |qs| == 0 then [] else QuestionDumps(qs[..|qs| - 1]) + [QuestionDump(qs[|qs| - 1])]
  }

  function PlanDump(p: PlanFields): Value
  {
    Dict(Zip(PlanKeys, [Str(p.locale), Bool(p.hasEnoughContext), Str(p.thought), Str(p.title),
                        List(QuestionDumps(p.questions))]))
  }

  lemma QuestionDumpValid(q: QuestionFields)
    ensures ValidQuestion(QuestionDump(q)) == Ok(q)
  {
    var vs := [Str(q.question), Str(q.description), Str(TaskTypeName(q.stepType)),
               Bool(q.needSearch), OptStr(q.executionRes)];
    var d := QuestionDump(q).entries;
    QuestionKeysDistinct();
    assert RequiredText(d, "question") == Ok(q.question) by { LookupZip(QuestionKeys, vs, 0); }
    assert RequiredText(d, "description") == Ok(q.description) by { LookupZip(QuestionKeys, vs, 1); }
    assert RequiredText(d, "step_type") == Ok(TaskTypeName(q.stepType)) by { LookupZip(QuestionKeys, vs, 2); }
    assert RequiredBool(d, "need_search") == Ok(q.needSearch) by { LookupZip(QuestionKeys, vs, 3); }
    assert Lookup(d, "execution_res") == Some(OptStr(q.executionRes)) by { LookupZip(QuestionKeys, vs, 4); }
    TaskTypeRoundTrip(q.stepType);
  }

  lemma QuestionKeysDistinct()
    ensures Distinct(QuestionKeys)
  {
    var lengths := [8, 11, 9, 11, 13];
    assert forall i :: 0 <= i < 5 ==> |QuestionKeys[i]| == lengths[i];
    assert QuestionKeys[1][0] != QuestionKeys[3][0];
  }

  lemma PlanKeysDistinct()
    ensures Distinct(PlanKeys)
  {
    var lengths := [6, 18, 7, 5, 9];
    assert forall i :: 0 <= i < 5 ==> |PlanKeys[i]| == lengths[i];
  }

  lemma {:induction false} QuestionsDumpValid(qs: seq<QuestionFields>)
    ensures ValidQuestions(QuestionDumps(qs)) == Ok(qs)
    decreases |qs|
  {
    if |qs| > 0 {
      var items := QuestionDumps(qs);
      var init := qs[..|qs| - 1];
      assert items[..|items| - 1] == QuestionDumps(init);
      QuestionsDumpValid(init);
      QuestionDumpValid(qs[|qs| - 1]);
      assert init + [qs[|qs| - 1]] == qs;
    }
  }

  /** Each field of a dumped plan sits under its own key. */
  lemma PlanDumpLookups(p: PlanFields)
    ensures Lookup(PlanDump(p).entries, "locale") == Some(Str(p.locale))
    ensures Lookup(PlanDump(p).entries, "has_enough_context") == Some(Bool(p.hasEnoughContext))
    ensures Lookup(PlanDump(p).entries, "thought") == Some(Str(p.thought))
    ensures Lookup(PlanDump(p).entries, "title") == Some(Str(p.title))
    ensures Lookup(PlanDump(p).entries, "questions") == Some(List(QuestionDumps(p.questions)))
  {
    var vs := [Str(p.locale), Bool(p.hasEnoughContext), Str(p.thought), Str(p.title),
               List(QuestionDumps(p.questions))];
    PlanKeysDistinct();
    LookupZip(PlanKeys, vs, 0);
    LookupZip(PlanKeys, vs, 1);
    LookupZip(PlanKeys, vs, 2);
    LookupZip(PlanKeys, vs, 3);
    LookupZip(PlanKeys, vs, 4);
  }

  /** Validation reads a dumped plan back unchanged: `model_validate(model_dump(p)) == p`. */
  lemma PlanDumpRoundTrip(p: PlanFields)
    ensures ValidPlan(PlanDump(p)) == Ok(p)
  {
    PlanDumpLookups(p);
    QuestionsDumpValid(p.questions);
    var d := PlanDump(p).entries;
    assert RequiredText(d, "locale") == Ok(p.locale);
    assert RequiredBool(d, "has_enough_context") == Ok(p.hasEnoughContext);
    assert RequiredText(d, "title") == Ok(p.title);
  }

  /** Every validated sub-question carries one of the three task types. */
  lemma ValidatedStepTypes(v: Value)
    requires ValidPlan(v).Ok?
    ensures forall i :: 0 <= i < |ValidPlan(v).value.questions| ==>
      TaskTypeName(ValidPlan(v).value.questions[i].stepType) in TaskTypeNames
  {
  }
}
