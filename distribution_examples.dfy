/** Worked examples of the task router on descriptions the repository's
    own validation script uses, with the agent registry reporting no
    agents. Each description is its words joined by single spaces. A
    keyword is shown absent by a space-free piece of it and, for every
    word at least as long as that piece, a character of the piece the word
    lacks. */
module DistributionExamples {
  import opened Text
  import opened Values
  import Clarification
  import McpTools
  import opened Distribution

  // -------------------------------------------------------------------
  // "Fix simple bug in function"
  // -------------------------------------------------------------------

  const FixBug: seq<string> := ["Fix", "simple", "bug", "in", "function"]
  const FixBugLower: seq<string> := ["fix", "simple", "bug", "in", "function"]

  lemma FixBugLowered()
    ensures Lower(Join(FixBug, ' ')) == Join(FixBugLower, ' ')
  {
    LowerJoin(FixBug);
    FixBugWordsLowered();
  }

  lemma FixBugWordsLowered()
    ensures LowerAll(FixBug) == FixBugLower
  {
    assert Lower("Fix") == "fix";
    assert Lower("simple") == "simple";
    assert Lower("bug") == "bug";
    assert Lower("in") == "in";
    assert Lower("function") == "function";
    LowerAllIs(FixBug, FixBugLower);
  }

  /** "Fix simple bug in function" has complexity 1, is no MCP task and so
      goes to a single agent (none, while the registry is empty). */
  lemma FixBugGoesToSingleAgent(context: Dict, run: (string, Json) -> string)
    ensures AnalyzeTaskComplexity(Join(FixBug, ' ')) == 1
    ensures EnhancedTaskDistribution(Join(FixBug, ' '), context, [], run)
         == SingleAgent(None, Join(FixBug, ' '), context)
  {
    FixBugLowered();
    PieceInJoin(FixBugLower, 0);
    assert "fix" in SimpleIndicators;
    FixBugHasNoAmbiguity();
    FixBugIsNoMcpTask();
  }

  lemma FixBugHasNoAmbiguity()
    ensures Clarification.AmbiguityScore(Join(FixBug, ' '), Clarification.AmbiguityIndicators) == 0.0
  {
    var t := Join(FixBugLower, ' ');
    FixBugLowered();
    FixBugNoHedges();
    Clarification.MatchCountNone(t, Clarification.HighAmbiguity);
    FixBugNoGaps();
    Clarification.MatchCountNone(t, Clarification.MissingRequirements);
    FixBugNoApproaches();
    Clarification.MatchCountNone(t, Clarification.MultipleApproaches);
    FixBugNoScope();
    Clarification.MatchCountNone(t, Clarification.UndefinedScope);
    Clarification.ScoreOfIndicators(Join(FixBug, ' '));
  }

  lemma FixBugNoHedges()
    ensures forall k :: k in Clarification.HighAmbiguity ==> !Contains(Join(FixBugLower, ' '), k)
  {
    FixBugNoUncertainty();
    FixBugNoDeliberation();
  }

  lemma FixBugNoUncertainty()
    ensures forall k :: k in ["unclear", "maybe", "possibly"] ==> !Contains(Join(FixBugLower, ' '), k)
  {
    NoneInWords(FixBugLower, ["unclear", "maybe", "possibly"],
      [0, 0, 0],
      ["unclear", "maybe", "possibly"],
      ["aaaaa", "aaaaa", "yyyyy"]);
  }

  lemma FixBugNoDeliberation()
    ensures forall k :: k in ["think about", "consider"] ==> !Contains(Join(FixBugLower, ' '), k)
  {
    NoneInWords(FixBugLower, ["think about", "consider"],
      [0, 0],
      ["think", "consider"],
      ["hhhhh", "ddddd"]);
  }

  lemma FixBugNoGaps()
    ensures forall k :: k in Clarification.MissingRequirements ==> !Contains(Join(FixBugLower, ' '), k)
  {
    NoneInWords(FixBugLower, Clarification.MissingRequirements,
      [0, 0, 0],
      ["requirements", "specifications", "details"],
      ["rrrrr", "aaaaa", "aaaaa"]);
  }
  lemma FixBugNoApproaches()
    ensures forall k :: k in Clarification.MultipleApproaches ==> !Contains(Join(FixBugLower, ' '), k)
  {
    NoneInWords(FixBugLower, Clarification.MultipleApproaches,
      [0, 0, 0, 0, 0],
      ["ways", "methods", "approaches", "options", "alternatives"],
      ["wwwww", "hhhhh", "aaaaa", "....p", "aaaaa"]);
  }
  lemma FixBugNoScope()
    ensures forall k :: k in Clarification.UndefinedScope ==> !Contains(Join(FixBugLower, ' '), k)
  {
    NoneInWords(FixBugLower, Clarification.UndefinedScope,
      [0, 0, 0, 0],
      ["scope", "boundaries", "limitations", "constraints"],
      [".c..s", "aaaaa", "aaaaa", "aaaaa"]);
  }
  lemma FixBugIsNoMcpTask()
    ensures McpTools.IsMcpTask(Join(FixBug, ' ')).None?
  {
    FixBugLowered();
    FixBugNoSearch();
    FixBugNoDocs();
    FixBugNoAnalysis();
    FixBugNoFiles();
    FixBugNoConfiguration();
    FixBugNoWeb();
    FirstMatchNone(Join(FixBugLower, ' '), McpTools.McpTaskPatterns, McpTools.SearchResearch);
  }

  lemma FixBugNoSearch()
    ensures !AnyIn(Join(FixBugLower, ' '), McpTools.SearchKeywords)
  {
    NoneInWords(FixBugLower, McpTools.SearchKeywords,
      [0, 0, 0, 0, 0],
      ["search", "find", "research", "look", "investigate"],
      ["aaaaa", "ddddd", "rrrrr", "kkkkk", "vvvvv"]);
  }
  lemma FixBugNoDocs()
    ensures !AnyIn(Join(FixBugLower, ' '), McpTools.DocumentationKeywords)
  {
    NoneInWords(FixBugLower, McpTools.DocumentationKeywords,
      [0, 0, 0, 0, 0],
      ["documentation", "docs", "manual", "guide", "reference"],
      ["ddddd", "ddddd", "aaaaa", "ddddd", "rrrrr"]);
  }
  lemma FixBugNoAnalysis()
    ensures !AnyIn(Join(FixBugLower, ' '), McpTools.AnalysisKeywords)
  {
    NoneInWords(FixBugLower, McpTools.AnalysisKeywords,
      [0, 0, 7],
      ["analyze", "quick", "review"],
      ["aaaaa", "qqqqq", "rrrrr"]);
  }
  lemma FixBugNoFiles()
    ensures !AnyIn(Join(FixBugLower, ' '), McpTools.FileKeywords)
  {
    NoneInWords(FixBugLower, McpTools.FileKeywords,
      [0, 0, 0, 0],
      ["read", "check", "list", "find"],
      ["rrrrr", "hhhhh", ".t..l", "ddddd"]);
  }
  lemma FixBugNoConfiguration()
    ensures !AnyIn(Join(FixBugLower, ' '), McpTools.ConfigurationKeywords)
  {
    NoneInWords(FixBugLower, McpTools.ConfigurationKeywords,
      [0, 0, 0],
      ["configure", "setup", "basic"],
      ["rrrrr", ".t..s", "aaaaa"]);
  }
  lemma FixBugNoWeb()
    ensures !AnyIn(Join(FixBugLower, ' '), McpTools.WebKeywords)
  {
    NoneInWords(FixBugLower, McpTools.WebKeywords,
      [4, 0, 0],
      ["web", "fetch", "web"],
      ["wwwww", "hhhhh", "wwwww"]);
  }
  // -------------------------------------------------------------------
  // "Implement authentication system"
  // -------------------------------------------------------------------

  const Auth: seq<string> := ["Implement", "authentication", "system"]
  const AuthLower: seq<string> := ["implement", "authentication", "system"]

  lemma AuthLowered()
    ensures Lower(Join(Auth, ' ')) == Join(AuthLower, ' ')
  {
    LowerJoin(Auth);
    AuthWordsLowered();
  }

  lemma AuthWordsLowered()
    ensures LowerAll(Auth) == AuthLower
  {
    assert Lower("Implement") == "implement";
    assert Lower("authentication") == "authentication";
    assert Lower("system") == "system";
    LowerAllIs(Auth, AuthLower);
  }

  /** "Implement authentication system" has complexity 3 and is delegated:
      to nobody while the registry is empty, so not in parallel. */
  lemma AuthenticationIsDelegated(context: Dict, run: (string, Json) -> string)
    ensures AnalyzeTaskComplexity(Join(Auth, ' ')) == 3
    ensures EnhancedTaskDistribution(Join(Auth, ' '), context, [], run)
         == AgentDelegation([], Join(Auth, ' '), context, false, true)
  {
    AuthenticationComplexity();
    AuthenticationHasNoAmbiguity();
  }

  lemma AuthenticationComplexity()
    ensures AnalyzeTaskComplexity(Join(Auth, ' ')) == 3
  {
    AuthLowered();
    AuthNoSimpleWords();
    PieceInJoin(AuthLower, 0);
    assert "implement" in ComplexityIndicators;
  }

  lemma AuthNoSimpleWords()
    ensures !AnyIn(Join(AuthLower, ' '), SimpleIndicators)
  {
    NoneInWords(AuthLower, SimpleIndicators,
      [0, 0, 0, 0, 0, 0],
      ["fix", "add", "update", "change", "simple", "basic"],
      ["fff", "ddd", "ddd", "ggg", "ssi", "bbb"]);
  }

  lemma AuthenticationHasNoAmbiguity()
    ensures Clarification.AmbiguityScore(Join(Auth, ' '), Clarification.AmbiguityIndicators) == 0.0
  {
    var t := Join(AuthLower, ' ');
    AuthLowered();
    AuthNoHedges();
    Clarification.MatchCountNone(t, Clarification.HighAmbiguity);
    AuthNoGaps();
    Clarification.MatchCountNone(t, Clarification.MissingRequirements);
    AuthNoApproaches();
    Clarification.MatchCountNone(t, Clarification.MultipleApproaches);
    AuthNoScope();
    Clarification.MatchCountNone(t, Clarification.UndefinedScope);
    Clarification.ScoreOfIndicators(Join(Auth, ' '));
  }

  lemma AuthNoHedges()
    ensures forall k :: k in Clarification.HighAmbiguity ==> !Contains(Join(AuthLower, ' '), k)
  {
    AuthNoUncertainty();
    AuthNoDeliberation();
  }

  lemma AuthNoUncertainty()
    ensures forall k :: k in ["unclear", "maybe", "possibly"] ==> !Contains(Join(AuthLower, ' '), k)
  {
    NoneInWords(AuthLower, ["unclear", "maybe", "possibly"],
      [0, 0, 0],
      ["unclear", "maybe", "possibly"],
      ["rrr", "bbb", "bbb"]);
  }

  lemma AuthNoDeliberation()
    ensures forall k :: k in ["think about", "consider"] ==> !Contains(Join(AuthLower, ' '), k)
  {
    NoneInWords(AuthLower, ["think about", "consider"],
      [0, 0],
      ["think", "consider"],
      ["kkk", "ddd"]);
  }

  lemma AuthNoGaps()
    ensures forall k :: k in Clarification.MissingRequirements ==> !Contains(Join(AuthLower, ' '), k)
  {
    NoneInWords(AuthLower, Clarification.MissingRequirements,
      [0, 0, 0],
      ["requirements", "specifications", "details"],
      ["rrr", "fff", "ddd"]);
  }
  lemma AuthNoApproaches()
    ensures forall k :: k in Clarification.MultipleApproaches ==> !Contains(Join(AuthLower, ' '), k)
  {
    NoneInWords(AuthLower, Clarification.MultipleApproaches,
      [0, 0, 0, 0, 0],
      ["ways", "methods", "approaches", "options", "alternatives"],
      ["www", "ddd", "rrr", "spo", "rrr"]);
  }
  lemma AuthNoScope()
    ensures forall k :: k in Clarification.UndefinedScope ==> !Contains(Join(AuthLower, ' '), k)
  {
    NoneInWords(AuthLower, Clarification.UndefinedScope,
      [0, 0, 0, 0],
      ["scope", "boundaries", "limitations", "constraints"],
      ["ssc", "bbb", ".l.", "rrr"]);
  }
  // -------------------------------------------------------------------
  // "Maybe we could improve the system somehow"
  // -------------------------------------------------------------------

  const Hedged: seq<string> := ["Maybe", "we", "could", "improve", "the", "system", "somehow"]
  const HedgedLower: seq<string> := ["maybe", "we", "could", "improve", "the", "system", "somehow"]

  lemma HedgedLowered()
    ensures Lower(Join(Hedged, ' ')) == Join(HedgedLower, ' ')
  {
    LowerJoin(Hedged);
    HedgedWordsLowered();
  }

  lemma HedgedWordsLowered()
    ensures LowerAll(Hedged) == HedgedLower
  {
    assert Lower("Maybe") == "maybe";
    assert Lower("we") == "we";
    assert Lower("could") == "could";
    assert Lower("improve") == "improve";
    assert Lower("the") == "the";
    assert Lower("system") == "system";
    assert Lower("somehow") == "somehow";
    LowerAllIs(Hedged, HedgedLower);
  }

  /** "Maybe we could improve the system somehow" has complexity 3 but only
      one hedging word, so it scores 0.3 and is not sent back for
      clarification. */
  lemma HedgedRequestIsNotClarified()
    ensures AnalyzeTaskComplexity(Join(Hedged, ' ')) == 3
    ensures Clarification.AmbiguityScore(Join(Hedged, ' '), Clarification.AmbiguityIndicators) == 0.3
    ensures !Clarification.NeedsClarification(Join(Hedged, ' '), 3)
  {
    HedgedRequestComplexity();
    HedgedRequestScore();
  }

  lemma HedgedRequestComplexity()
    ensures AnalyzeTaskComplexity(Join(Hedged, ' ')) == 3
  {
    HedgedLowered();
    HedgedNoSimpleWords();
    PieceInJoin(HedgedLower, 5);
    assert "system" in ComplexityIndicators;
  }

  lemma HedgedNoSimpleWords()
    ensures !AnyIn(Join(HedgedLower, ' '), SimpleIndicators)
  {
    NoneInWords(HedgedLower, SimpleIndicators,
      [0, 0, 0, 0, 0, 0],
      ["fix", "add", "update", "change", "simple", "basic"],
      ["fffffff", "d.aaaaa", "...u.uu", "nnnnnnn", "...l.ii", "s.bb.bb"]);
  }
  lemma HedgedRequestScore()
    ensures Clarification.AmbiguityScore(Join(Hedged, ' '), Clarification.AmbiguityIndicators) == 0.3
  {
    var t := Join(HedgedLower, ' ');
    HedgedLowered();
    HedgedOneHedge();
    Clarification.MatchCountOne(t, Clarification.HighAmbiguity, 1);
    HedgedNoGaps();
    Clarification.MatchCountNone(t, Clarification.MissingRequirements);
    HedgedNoApproaches();
    Clarification.MatchCountNone(t, Clarification.MultipleApproaches);
    HedgedNoScope();
    Clarification.MatchCountNone(t, Clarification.UndefinedScope);
    Clarification.ScoreOfIndicators(Join(Hedged, ' '));
  }

  lemma HedgedOneHedge()
    ensures Contains(Join(HedgedLower, ' '), Clarification.HighAmbiguity[1])
    ensures forall i :: 0 <= i < |Clarification.HighAmbiguity| && i != 1 ==>
      !Contains(Join(HedgedLower, ' '), Clarification.HighAmbiguity[i])
  {
    PieceInJoin(HedgedLower, 0);
    HedgedNoOtherHedges();
  }

  lemma HedgedNoOtherHedges()
    ensures forall k :: k in ["unclear", "possibly", "think about", "consider"] ==> !Contains(Join(HedgedLower, ' '), k)
  {
    NoneInWords(HedgedLower, ["unclear", "possibly", "think about", "consider"],
      [0, 0, 0, 0],
      ["unclear", "possibly", "think", "consider"],
      ["nnnnnnn", ".......", "nnnnnnn", "nnnnnnn"]);
  }
  lemma HedgedNoGaps()
    ensures forall k :: k in Clarification.MissingRequirements ==> !Contains(Join(HedgedLower, ' '), k)
  {
    NoneInWords(HedgedLower, Clarification.MissingRequirements,
      [0, 0, 0],
      ["requirements", "specifications", "details"],
      ["qqqqqqq", "fffffff", "...a..a"]);
  }
  lemma HedgedNoApproaches()
    ensures forall k :: k in Clarification.MultipleApproaches ==> !Contains(Join(HedgedLower, ' '), k)
  {
    NoneInWords(HedgedLower, Clarification.MultipleApproaches,
      [0, 0, 0, 0, 0],
      ["ways", "methods", "approaches", "options", "alternatives"],
      ["w.ww.wa", "...t..t", ".......", "nnnnnnn", "nnnnnnn"]);
  }
  lemma HedgedNoScope()
    ensures forall k :: k in Clarification.UndefinedScope ==> !Contains(Join(HedgedLower, ' '), k)
  {
    NoneInWords(HedgedLower, Clarification.UndefinedScope,
      [0, 0, 0, 0],
      ["scope", "boundaries", "limitations", "constraints"],
      ["s.ss.cc", "nnnnnnn", "nnnnnnn", "nnnnnnn"]);
  }
}
