/** Interactive clarification: an ambiguity score built from weighted
    keyword families, the rule that decides whether the user must be asked
    before routing, task-type detection and the fixed question templates. */
module Clarification {
  import opened Text
  import opened Values

  const HighAmbiguity: seq<string> := ["unclear", "maybe", "possibly", "think about", "consider"]
  const MissingRequirements: seq<string> := ["requirements", "specifications", "details needed"]
  const MultipleApproaches: seq<string> := ["ways", "methods", "approaches", "options", "alternatives"]
  const UndefinedScope: seq<string> := ["scope", "boundaries", "limitations", "constraints"]

  /** The indicator families in dict order, with the keywords of each. */
  const AmbiguityIndicators: seq<(string, seq<string>)> := [
    ("high_ambiguity", HighAmbiguity),
    ("missing_requirements", MissingRequirements),
    ("multiple_approaches", MultipleApproaches),
    ("undefined_scope", UndefinedScope)
  ]

  /** What a family's matches add, by the family's name: 0.3, 0.4, 0.2 or
      0.3 per match for the four named families, nothing for any other. */
  function Contribution(category: string, matches: nat): (c: real)
    ensures 0.0 <= c <= 0.4 * matches as real
    ensures category !in {"high_ambiguity", "missing_requirements", "multiple_approaches", "undefined_scope"} ==> c == 0.0
  {
    if category == "high_ambiguity" then matches as real * 0.3
    else if category == "missing_requirements" then matches as real * 0.4
    else if category == "multiple_approaches" then matches as real * 0.2
    else if category == "undefined_scope" then matches as real * 0.3
    else 0.0
  }

  /** More matches never add less. */
  lemma ContributionMonotone(category: string, n1: nat, n2: nat)
    requires n1 <= n2
    ensures Contribution(category, n1) <= Contribution(category, n2)
  {
  }

  /** `sum(1 for keyword in keywords if keyword in text)`: each listed
      keyword counts once, however often it occurs. */
  function MatchCount(text: string, keywords: seq<string>): (n: nat)
    ensures n <= |keywords|
  {
    if keywords == [] then 0
    else (if Contains(text, keywords[0]) then 1 else 0) + MatchCount(text, keywords[1..])
  }

  /** The uncapped score of the first families: Σ matches × weight. */
  function RawScore(text: string, indicators: seq<(string, seq<string>)>): (s: real)
    ensures s >= 0.0
  {
    if indicators == [] then 0.0
    else
      var last := indicators[|indicators| - 1];
      RawScore(text, indicators[..|indicators| - 1]) + Contribution(last.0, MatchCount(text, last.1))
  }

  function Cap(s: real): real {
    if s <= 1.0 then s else 1.0
  }

  /** `calculate_ambiguity_score`, as a value: the raw score of the
      lower-cased text, capped at 1.0. */
  function AmbiguityScore(description: string, indicators: seq<(string, seq<string>)>): (s: real)
    ensures 0.0 <= s <= 1.0
  {
    Cap(RawScore(Lower(description), indicators))
  }

  /** `calculate_ambiguity_score`: accumulates the weighted match counts
      family by family, then caps the sum. */
  method CalculateAmbiguityScore(description: string, indicators: seq<(string, seq<string>)>) returns (score: real)
    ensures score == AmbiguityScore(description, indicators)
    ensures 0.0 <= score <= 1.0
  {
    var taskLower := Lower(description);
    score := 0.0;
    var i := 0;
    while i < |indicators|
      invariant 0 <= i <= |indicators|
      invariant score == RawScore(taskLower, indicators[..i])
    {
      var (category, keywords) := indicators[i];
      var matches := MatchCount(taskLower, keywords);
      assert indicators[..i + 1][..i] == indicators[..i];
      score := score + Contribution(category, matches);
      i := i + 1;
    }
    assert indicators[..i] == indicators;
    score := Cap(score);
  }

  /** `determine_need_for_clarification`. */
  predicate NeedsClarification(description: string, complexity: int) {
    var s := AmbiguityScore(description, AmbiguityIndicators);
    (complexity >= 3 && s > 0.6) || s > 0.8
  }

  // -------------------------------------------------------------------
  // Properties of the score
  // -------------------------------------------------------------------

  lemma {:induction false} MatchCountMonotone(t1: string, t2: string, keywords: seq<string>)
    requires forall k :: k in keywords && Contains(t1, k) ==> Contains(t2, k)
    ensures MatchCount(t1, keywords) <= MatchCount(t2, keywords)
  {
    if keywords != [] {
      MatchCountMonotone(t1, t2, keywords[1..]);
    }
  }

  lemma {:induction false} RawScoreMonotone(t1: string, t2: string, indicators: seq<(string, seq<string>)>)
    requires forall i :: 0 <= i < |indicators| ==> MatchCount(t1, indicators[i].1) <= MatchCount(t2, indicators[i].1)
    ensures RawScore(t1, indicators) <= RawScore(t2, indicators)
  {
    if indicators != [] {
      var init := indicators[..|indicators| - 1];
      var last := indicators[|indicators| - 1];
      assert forall i :: 0 <= i < |init| ==> init[i] == indicators[i];
      RawScoreMonotone(t1, t2, init);
      ContributionMonotone(last.0, MatchCount(t1, last.1), MatchCount(t2, last.1));
    }
  }

  /** A text holding every keyword another text holds never scores lower. */
  lemma ScoreMonotone(d1: string, d2: string, indicators: seq<(string, seq<string>)>)
    requires forall k :: Contains(Lower(d1), k) ==> Contains(Lower(d2), k)
    ensures AmbiguityScore(d1, indicators) <= AmbiguityScore(d2, indicators)
  {
    forall i | 0 <= i < |indicators|
      ensures MatchCount(Lower(d1), indicators[i].1) <= MatchCount(Lower(d2), indicators[i].1)
    {
      MatchCountMonotone(Lower(d1), Lower(d2), indicators[i].1);
    }
    RawScoreMonotone(Lower(d1), Lower(d2), indicators);
  }

  /** Adding text to a description never makes it look less ambiguous. */
  lemma ExtendingNeverLowers(d: string, before: string, after: string, indicators: seq<(string, seq<string>)>)
    ensures AmbiguityScore(d, indicators) <= AmbiguityScore(before + d + after, indicators)
  {
    LowerAppend(before + d, after);
    LowerAppend(before, d);
    forall k | Contains(Lower(d), k)
      ensures Contains(Lower(before + d + after), k)
    {
      ContainsExtend(Lower(d), k, Lower(before), Lower(after));
    }
    ScoreMonotone(d, before + d + after, indicators);
  }

  /** With the built-in indicator families the score is
      0.3·hedges + 0.4·missing + 0.2·approaches + 0.3·scope, capped at 1. */
  lemma ScoreOfIndicators(description: string)
    ensures var t := Lower(description);
      AmbiguityScore(description, AmbiguityIndicators)
      == Cap(MatchCount(t, HighAmbiguity) as real * 0.3
           + MatchCount(t, MissingRequirements) as real * 0.4
           + MatchCount(t, MultipleApproaches) as real * 0.2
           + MatchCount(t, UndefinedScope) as real * 0.3)
  {
    var t := Lower(description);
    var ind := AmbiguityIndicators;
    assert ind[..3][..2] == ind[..2] && ind[..2][..1] == ind[..1] && ind[..1][..0] == [];
    assert ind[..4] == ind;
    assert RawScore(t, ind[..1]) == MatchCount(t, ind[0].1) as real * 0.3;
    assert RawScore(t, ind[..2]) == RawScore(t, ind[..1]) + MatchCount(t, ind[1].1) as real * 0.4;
    assert RawScore(t, ind[..3]) == RawScore(t, ind[..2]) + MatchCount(t, ind[2].1) as real * 0.2;
  }

  lemma {:induction false} MatchCountNone(text: string, keywords: seq<string>)
    requires forall k :: k in keywords ==> !Contains(text, k)
    ensures MatchCount(text, keywords) == 0
  {
    if keywords != [] {
      MatchCountNone(text, keywords[1..]);
    }
  }

  lemma {:induction false} MatchCountOne(text: string, keywords: seq<string>, j: nat)
    requires j < |keywords| && Contains(text, keywords[j])
    requires forall i :: 0 <= i < |keywords| && i != j ==> !Contains(text, keywords[i])
    ensures MatchCount(text, keywords) == 1
  {
    if j == 0 {
      MatchCountNone(text, keywords[1..]);
    } else {
      MatchCountOne(text, keywords[1..], j - 1);
    }
  }

  /** The number of listed keywords present, over all families. */
  function TotalMatches(text: string, indicators: seq<(string, seq<string>)>): nat {
    if indicators == [] then 0
    else TotalMatches(text, indicators[..|indicators| - 1]) + MatchCount(text, indicators[|indicators| - 1].1)
  }

  lemma {:induction false} RawScoreAtMost(text: string, indicators: seq<(string, seq<string>)>)
    ensures RawScore(text, indicators) <= 0.4 * TotalMatches(text, indicators) as real
  {
    if indicators != [] {
      var init := indicators[..|indicators| - 1];
      var last := indicators[|indicators| - 1];
      RawScoreAtMost(text, init);
      assert TotalMatches(text, indicators) == TotalMatches(text, init) + MatchCount(text, last.1);
    }
  }

  /** One keyword never triggers clarification, and without a complexity of
      3 or more even two keywords do not: the heaviest family weighs 0.4. */
  lemma ClarificationNeedsSeveralKeywords(description: string, complexity: int)
    requires NeedsClarification(description, complexity)
    ensures TotalMatches(Lower(description), AmbiguityIndicators) >= 2
    ensures complexity < 3 ==> TotalMatches(Lower(description), AmbiguityIndicators) >= 3
  {
    RawScoreAtMost(Lower(description), AmbiguityIndicators);
  }

  // -------------------------------------------------------------------
  // Task types and questions
  // -------------------------------------------------------------------

  datatype TaskKind = Development | Analysis | Optimization | Integration | GeneralTask

  const TaskTypeRules: seq<(TaskKind, seq<string>)> := [
    (Development, ["implement", "develop", "build", "create", "code"]),
    (Analysis, ["analyze", "research", "investigate", "examine"]),
    (Optimization, ["optimize", "improve", "enhance", "speed up"]),
    (Integration, ["integrate", "connect", "combine", "merge"])
  ]

  /** `detect_task_type`: the first family whose word occurs, else general. */
  function DetectTaskType(description: string): TaskKind {
    FirstMatch(Lower(description), TaskTypeRules, GeneralTask)
  }

  /** A development word decides the type whatever else the text says;
      the type is general exactly when no word of any family occurs. */
  lemma DetectTaskTypeOrder(description: string)
    ensures AnyIn(Lower(description), TaskTypeRules[0].1) ==> DetectTaskType(description) == Development
    ensures DetectTaskType(description) == GeneralTask <==>
      forall j :: 0 <= j < |TaskTypeRules| ==> !AnyIn(Lower(description), TaskTypeRules[j].1)
  {
    var text := Lower(description);
    if forall j :: 0 <= j < |TaskTypeRules| ==> !AnyIn(text, TaskTypeRules[j].1) {
      FirstMatchNone(text, TaskTypeRules, GeneralTask);
    }
  }

  /** `generate_general_questions`. */
  function GeneralQuestions(context: Dict): (qs: seq<string>)
    ensures |qs| == 4
  {
    [
      "What are the specific requirements for this task?",
      "What is the expected outcome or deliverable?",
      "Are there any constraints or limitations I should be aware of?",
      "What is the timeline or urgency for this task?"
    ]
  }

  const DevelopmentQuestions: seq<string> := [
    "Which technology stack should be used for this implementation?",
    "What are the scalability requirements for this solution?",
    "Are there specific coding standards or architectural patterns to follow?",
    "What are the performance constraints or benchmarks?"]

  const AnalysisQuestions: seq<string> := [
    "What specific aspects should be analyzed in detail?",
    "Are there particular metrics or criteria of interest?",
    "What sources or data should be considered in the analysis?",
    "What format should the analysis results take?"]

  const OptimizationQuestions: seq<string> := [
    "What are the current performance metrics or baselines?",
    "Which areas need priority optimization?",
    "Are there constraints on changes to the existing system?",
    "What are the target improvement goals?"]

  const IntegrationQuestions: seq<string> := [
    "Which systems or services need to be integrated?",
    "What are the API specifications or data formats?",
    "Are there security or compliance requirements?",
    "What error handling or fallback mechanisms are needed?"]

  /** The template of each specific task type. */
  function Template(kind: TaskKind): (t: Option<seq<string>>)
    ensures t.None? <==> kind == GeneralTask
    ensures t.Some? ==> |t.value| == 4
  {
    match kind
    case Development => Some(DevelopmentQuestions)
    case Analysis => Some(AnalysisQuestions)
    case Optimization => Some(OptimizationQuestions)
    case Integration => Some(IntegrationQuestions)
    case GeneralTask => None
  }

  /** `generate_contextual_questions`: always four questions, the
      general ones when the task type has no template. */
  function GenerateContextualQuestions(description: string, context: Dict, complexity: int): (qs: seq<string>)
    ensures |qs| == 4
    ensures DetectTaskType(description) == GeneralTask ==> qs == GeneralQuestions(context)
    ensures DetectTaskType(description) != GeneralTask ==> Some(qs) == Template(DetectTaskType(description))
  {
    QuestionsFor(DetectTaskType(description), context)
  }

  /** The questions for a task type: its template, or the general ones. */
  function QuestionsFor(kind: TaskKind, context: Dict): (qs: seq<string>)
    ensures |qs| == 4
    ensures kind == GeneralTask ==> qs == GeneralQuestions(context)
    ensures kind != GeneralTask ==> Some(qs) == Template(kind)
  {
    if kind == GeneralTask then GeneralQuestions(context) else Template(kind).value
  }

  /** `process_user_responses`: the context comes back unchanged. */
  function ProcessUserResponses(responses: Json, context: Dict): (r: Dict)
    ensures r == context
  {
    context
  }

  /** `refine_task_understanding`: the context comes back unchanged. */
  function RefineTaskUnderstanding(context: Dict, responses: Json): (r: Dict)
    ensures r == context
  {
    context
  }
}
