/** The keyword-overlap fallback of the compatibility matrix, the switch
    from vector-space relevance to that fallback, and the rule that turns
    execution feedback into category weight adjustments. */
module Compatibility {
  import opened Text
  import opened Values

  /** An agent as the compatibility matrix sees it. */
  datatype AgentProfile = AgentProfile(name: string, capabilities: string, expertise: string)

  /** `extract_keywords_from_task`: for now, the lower-cased description. */
  function ExtractKeywordsFromTask(description: string): (r: string)
    ensures |r| == |description|
    ensures Lower(r) == r
  {
    LowerIdempotent(description);
    Lower(description)
  }

  /** The overlap ratio `|a ∩ b| / |a ∪ b|`, and 0.0 when both are empty. */
  function Jaccard(a: set<string>, b: set<string>): real {
    if a + b != {} then |a * b| as real / |a + b| as real else 0.0
  }

  /** The ratio lies in [0, 1], does not depend on the order of its
      arguments, is 1 exactly for equal non-empty sets and 0 exactly for
      disjoint ones. */
  lemma JaccardProperties(a: set<string>, b: set<string>)
    ensures 0.0 <= Jaccard(a, b) <= 1.0
    ensures Jaccard(a, b) == Jaccard(b, a)
    ensures Jaccard(a, b) == 1.0 <==> a == b && a != {}
    ensures Jaccard(a, b) == 0.0 <==> a * b == {}
  {
    assert a * b == b * a && a + b == b + a;
    if a + b != {} {
      SubsetSize(a * b, a + b);
      Share(|a * b|, |a + b|);
      if |a * b| == |a + b| {
        SubsetOfSameSize(a * b, a + b);
        SameIntersectionAndUnion(a, b);
      }
      if a == b {
        assert a * b == a + b;
      }
    }
  }

  lemma SameIntersectionAndUnion(a: set<string>, b: set<string>)
    requires a * b == a + b
    ensures a == b
  {
    assert forall x :: x in a ==> x in a * b;
    assert forall x :: x in b ==> x in a * b;
  }

  lemma SubsetOfSameSize(s: set<string>, t: set<string>)
    requires s <= t && |s| == |t|
    ensures s == t
  {
    if s != t {
      var x :| x in t && x !in s;
      SubsetSize(s, t - {x});
    }
  }

  /** The agent's keywords: capabilities and expertise, lower-cased and
      split on whitespace, as a set. */
  function AgentKeywords(agent: AgentProfile): set<string> {
    SetOf(Words(Lower(agent.capabilities + " " + agent.expertise)))
  }

  /** The task side as written: `set()` of the extracted string, which is
      the set of its characters, each a one-character string. */
  function TaskCharactersAsWritten(description: string): set<string> {
    set c | c in ExtractKeywordsFromTask(description) :: [c]
  }

  /** As written, only one-character agent keywords can ever be shared, so
      an agent whose keywords are all longer scores 0 whatever the task. */
  lemma AsWrittenIgnoresWholeWords(description: string, agent: AgentProfile)
    requires forall w :: w in AgentKeywords(agent) ==> |w| != 1
    ensures MatchScore(description, agent, true) == 0.0
  {
    var t := TaskCharactersAsWritten(description);
    var k := AgentKeywords(agent);
    assert forall w :: w in t ==> |w| == 1;
    assert t * k == {} by {
      forall w | w in t * k
        ensures false
      {
      }
    }
    JaccardProperties(t, k);
  }

  /** The task side as evidently intended: the words of the extracted
      keyword text. */
  function TaskKeywords(description: string): set<string> {
    SetOf(Words(ExtractKeywordsFromTask(description)))
  }

  /** The task side of line 110: as written (`asWritten`, the characters
      of the keyword text) or as evidently intended (its words). */
  function TaskSide(description: string, asWritten: bool): set<string> {
    if asWritten then TaskCharactersAsWritten(description) else TaskKeywords(description)
  }

  /** One agent's score against the chosen task side. */
  function MatchScore(description: string, agent: AgentProfile, asWritten: bool): real {
    Jaccard(TaskSide(description, asWritten), AgentKeywords(agent))
  }

  /** The task "api" and an agent whose only capability is "api": the
      word-level score is 1, the score as written is 0. */
  lemma SameWordScoresZeroAsWritten()
    ensures MatchScore("api", AgentProfile("api-agent", "api", ""), true) == 0.0
    ensures MatchScore("api", AgentProfile("api-agent", "api", ""), false) == 1.0
  {
    var agent := AgentProfile("api-agent", "api", "");
    assert Lower("api") == "api";
    assert "api" + " " + "" == "api" + " ";
    LowerAppend("api", " ");
    assert Lower(" ") == " ";
    WordsOfWord("api");
    assert AgentKeywords(agent) == {"api"};
    assert TaskKeywords("api") == {"api"};
    AsWrittenIgnoresWholeWords("api", agent);
    JaccardProperties({"api"}, {"api"});
  }

  /** The names of `agents`, each once. */
  function NamesOf(agents: seq<AgentProfile>): set<string> {
    set a | a in agents :: a.name
  }

  /** The `results` dict of `simple_keyword_matching` after the loop over
      `agents` (a later agent of the same name overwrites); `asWritten`
      selects the task side of line 110 as written or as intended. */
  function KeywordMatches(description: string, agents: seq<AgentProfile>, asWritten: bool): map<string, real> {
    if agents == [] then map[]
    else
      var last := agents[|agents| - 1];
      KeywordMatches(description, agents[..|agents| - 1], asWritten)[last.name := MatchScore(description, last, asWritten)]
  }

  /** `simple_keyword_matching`, with `asWritten` choosing between `set()`
      of the keyword string as written and its words. */
  method SimpleKeywordMatching(description: string, agents: seq<AgentProfile>, asWritten: bool) returns (results: map<string, real>)
    ensures results == KeywordMatches(description, agents, asWritten)
  {
    var taskKeywords := TaskSide(description, asWritten);
    results := map[];
    var i := 0;
    while i < |agents|
      invariant 0 <= i <= |agents|
      invariant results == KeywordMatches(description, agents[..i], asWritten)
    {
      var agentKeywords := AgentKeywords(agents[i]);
      assert agents[..i + 1][..i] == agents[..i];
      results := results[agents[i].name := Jaccard(taskKeywords, agentKeywords)];
      i := i + 1;
    }
    assert agents[..|agents|] == agents;
  }

  lemma NamesOfSnoc(agents: seq<AgentProfile>)
    requires agents != []
    ensures NamesOf(agents) == NamesOf(agents[..|agents| - 1]) + {agents[|agents| - 1].name}
  {
    var init := agents[..|agents| - 1];
    assert agents == init + [agents[|agents| - 1]];
    forall n | n in NamesOf(agents)
      ensures n in NamesOf(init) + {agents[|agents| - 1].name}
    {
      var a :| a in agents && a.name == n;
    }
    forall n | n in NamesOf(init)
      ensures n in NamesOf(agents)
    {
      var a :| a in init && a.name == n;
      assert a in agents;
    }
  }

  /** Every agent name gets an entry and no other name does. */
  lemma {:induction false} KeywordMatchesKeys(description: string, agents: seq<AgentProfile>, asWritten: bool)
    ensures KeywordMatches(description, agents, asWritten).Keys == NamesOf(agents)
  {
    if agents != [] {
      KeywordMatchesKeys(description, agents[..|agents| - 1], asWritten);
      NamesOfSnoc(agents);
    }
  }

  /** Each entry is the score of an agent of that name. */
  lemma {:induction false} KeywordMatchesFromAgents(description: string, agents: seq<AgentProfile>, asWritten: bool)
    ensures forall n :: n in KeywordMatches(description, agents, asWritten) ==>
      exists a :: a in agents && a.name == n && KeywordMatches(description, agents, asWritten)[n] == MatchScore(description, a, asWritten)
  {
    if agents != [] {
      var init := agents[..|agents| - 1];
      var last := agents[|agents| - 1];
      KeywordMatchesFromAgents(description, init, asWritten);
      var m := KeywordMatches(description, agents, asWritten);
      var prev := KeywordMatches(description, init, asWritten);
      assert m == prev[last.name := MatchScore(description, last, asWritten)];
      forall n | n in m
        ensures exists a :: a in agents && a.name == n && m[n] == MatchScore(description, a, asWritten)
      {
        if n == last.name {
          assert last in agents;
        } else {
          assert n in prev && m[n] == prev[n];
          var a :| a in init && a.name == n && prev[n] == MatchScore(description, a, asWritten);
          assert a in agents;
        }
      }
    }
  }

  /** Every agent gets an entry, and each entry is the score of an agent of
      that name. */
  lemma KeywordMatchesCoverAgents(description: string, agents: seq<AgentProfile>, asWritten: bool)
    ensures KeywordMatches(description, agents, asWritten).Keys == NamesOf(agents)
    ensures forall n :: n in KeywordMatches(description, agents, asWritten) ==>
      exists a :: a in agents && a.name == n && KeywordMatches(description, agents, asWritten)[n] == MatchScore(description, a, asWritten)
  {
    KeywordMatchesKeys(description, agents, asWritten);
    KeywordMatchesFromAgents(description, agents, asWritten);
  }

  /** Every score lies in [0, 1]. */
  lemma KeywordMatchesInUnitRange(description: string, agents: seq<AgentProfile>, asWritten: bool)
    ensures forall n :: n in KeywordMatches(description, agents, asWritten) ==>
      0.0 <= KeywordMatches(description, agents, asWritten)[n] <= 1.0
  {
    KeywordMatchesCoverAgents(description, agents, asWritten);
    forall n | n in KeywordMatches(description, agents, asWritten)
      ensures 0.0 <= KeywordMatches(description, agents, asWritten)[n] <= 1.0
    {
      var a :| a in agents && a.name == n && KeywordMatches(description, agents, asWritten)[n] == MatchScore(description, a, asWritten);
      JaccardProperties(TaskSide(description, asWritten), AgentKeywords(a));
    }
  }

  /** `calculate_tfidf_relevance_enhanced`: the vector-space scores when
      that computation succeeds (`Err` stands for any exception it
      raises), else the keyword fallback as written. */
  function TfidfRelevance(description: string, agents: seq<AgentProfile>,
                          vectorScores: Result<map<string, real>, string>): map<string, real>
  {
    match vectorScores
    case Ok(scores) => scores
    case Err(_) => KeywordMatches(description, agents, true)
  }

  /** A failing vector-space computation still gives every agent a score
      in [0, 1]. */
  lemma FallbackScoresEveryAgent(description: string, agents: seq<AgentProfile>, error: string)
    ensures TfidfRelevance(description, agents, Err(error)).Keys == NamesOf(agents)
    ensures forall n :: n in TfidfRelevance(description, agents, Err(error)) ==>
      0.0 <= TfidfRelevance(description, agents, Err(error))[n] <= 1.0
  {
    KeywordMatchesCoverAgents(description, agents, true);
    KeywordMatchesInUnitRange(description, agents, true);
  }

  /** The fallback inherits line 110: the task "api" scores 0 against an
      agent whose only capability is "api", where word matching gives 1. */
  lemma FallbackSameWordScoresZero(error: string)
    ensures TfidfRelevance("api", [AgentProfile("api-agent", "api", "")], Err(error)) == map["api-agent" := 0.0]
    ensures KeywordMatches("api", [AgentProfile("api-agent", "api", "")], false) == map["api-agent" := 1.0]
  {
    var agents := [AgentProfile("api-agent", "api", "")];
    SameWordScoresZeroAsWritten();
    assert agents[..0] == [];
  }

  // -------------------------------------------------------------------
  // Feedback from execution history
  // -------------------------------------------------------------------

  /** One entry of the execution history. */
  datatype TaskResult = TaskResult(
    assignedCategory: string,
    successRate: real,
    tfidfScore: real,
    userFeedback: Option<real>)

  /** The weight change the feedback rule asks for: −0.1 for a poor
      performance or relevance, +0.05 for an excellent pair, else none. */
  function Adjustment(r: TaskResult): (d: real)
    ensures d == -0.1 || d == 0.05 || d == 0.0
  {
    var feedback := match r.userFeedback case Some(f) => f case None => 0.5;
    var performance := (r.successRate + feedback) / 2.0;
    if performance < 0.7 || r.tfidfScore < 0.5 then -0.1
    else if performance > 0.9 && r.tfidfScore > 0.8 then 0.05
    else 0.0
  }

  /** The three outcomes of the rule, each as an if-and-only-if over the
      averaged performance (feedback defaulting to 0.5) and relevance. */
  lemma AdjustmentRule(r: TaskResult)
    ensures var p := (r.successRate + (if r.userFeedback.Some? then r.userFeedback.value else 0.5)) / 2.0;
      && (Adjustment(r) == -0.1 <==> p < 0.7 || r.tfidfScore < 0.5)
      && (Adjustment(r) == 0.05 <==> p > 0.9 && r.tfidfScore > 0.8)
      && (Adjustment(r) == 0.0 <==> p >= 0.7 && r.tfidfScore >= 0.5 && (p <= 0.9 || r.tfidfScore <= 0.8))
  {
  }

  /** The `adjust_category_weights` calls the feedback pass issues, in
      order; each comes with the matching log call. */
  function Adjustments(history: seq<TaskResult>): (calls: seq<(string, real)>)
  {
    if history == [] then []
    else
      var d := Adjustment(history[0]);
      (if d != 0.0 then [(history[0].assignedCategory, d)] else []) + Adjustments(history[1..])
  }

  /** At most one call per history entry, each with an allowed change for
      a category named in the history. */
  lemma {:induction false} AdjustmentsBounded(history: seq<TaskResult>)
    ensures |Adjustments(history)| <= |history|
    ensures forall c :: c in Adjustments(history) ==>
      (c.1 == -0.1 || c.1 == 0.05) && exists r :: r in history && r.assignedCategory == c.0
  {
    if history != [] {
      AdjustmentsBounded(history[1..]);
      assert forall r :: r in history[1..] ==> r in history;
    }
  }

  /** `evolve_categories_with_execution_feedback` over a given history. */
  method EvolveCategories(history: seq<TaskResult>) returns (calls: seq<(string, real)>)
    ensures calls == Adjustments(history)
  {
    calls := [];
    var i := 0;
    while i < |history|
      invariant 0 <= i <= |history|
      invariant calls + Adjustments(history[i..]) == Adjustments(history)
    {
      var d := Adjustment(history[i]);
      assert history[i..][1..] == history[i + 1..];
      if d != 0.0 {
        calls := calls + [(history[i].assignedCategory, d)];
      }
      i := i + 1;
    }
  }

  /** `get_recent_execution_history`: nothing is recorded yet. */
  function RecentExecutionHistory(): seq<TaskResult> {
    []
  }

  /** With the current history source the feedback pass adjusts nothing. */
  method EvolveCategoriesWithExecutionFeedback() returns (calls: seq<(string, real)>)
    ensures calls == []
  {
    calls := EvolveCategories(RecentExecutionHistory());
  }
}
