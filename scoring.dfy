/** Hybrid agent scoring: a weighted blend of a learned score, a TF-IDF
    relevance and a performance score, the rationale phrases the blend is
    explained by, the ranking of agents by blended score, capability
    matching against the task's requirements, and the top-candidate cut. */
module Scoring {
  import opened Text
  import opened Values
  import opened Ranking

  /** An agent as the selector sees it: its name and its capability text. */
  datatype Agent = Agent(name: string, capabilities: string)

  /** The phrases a rationale can hold; the numbers the source prints with
      them are not modelled. */
  datatype Phrase =
    | HighMlConfidence | ModerateMlConfidence
    | StrongTfidfRelevance | GoodTfidfRelevance
    | ExcellentPerformance | GoodPerformance

  /** The record `hybrid_scoring_system` returns. An empty rationale stands
      for "Selected based on available criteria". */
  datatype HybridScore = HybridScore(
    finalScore: real,
    mlConfidence: real,
    tfidfRelevance: real,
    performanceConfidence: real,
    rationale: seq<Phrase>)

  /** `generate_selection_rationale`: at most one phrase per factor, in
      learned / TF-IDF / performance order. */
  function SelectionRationale(ml: real, tfidf: real, performance: real): (r: seq<Phrase>)
    ensures |r| <= 3
  {
    (if ml > 0.8 then [HighMlConfidence] else if ml > 0.6 then [ModerateMlConfidence] else [])
    + (if tfidf > 0.7 then [StrongTfidfRelevance] else if tfidf > 0.5 then [GoodTfidfRelevance] else [])
    + (if performance > 0.8 then [ExcellentPerformance] else if performance > 0.6 then [GoodPerformance] else [])
  }

  /** `hybrid_scoring_system`. */
  function HybridScoringSystem(ml: real, tfidf: real, performance: real): (r: HybridScore)
    ensures r.mlConfidence == ml && r.tfidfRelevance == tfidf && r.performanceConfidence == performance
    ensures r.rationale == SelectionRationale(ml, tfidf, performance)
  {
    HybridScore(ml * 0.5 + tfidf * 0.3 + performance * 0.2, ml, tfidf, performance,
                SelectionRationale(ml, tfidf, performance))
  }

  /** The weights sum to one: scores in [0, 1] blend to a score in [0, 1]
      that lies between the smallest and the largest input. */
  lemma HybridWithinInputs(ml: real, tfidf: real, performance: real)
    ensures var f := HybridScoringSystem(ml, tfidf, performance).finalScore;
      var lo := if ml <= tfidf && ml <= performance then ml else if tfidf <= performance then tfidf else performance;
      var hi := if ml >= tfidf && ml >= performance then ml else if tfidf >= performance then tfidf else performance;
      lo <= f <= hi
    ensures 0.0 <= ml <= 1.0 && 0.0 <= tfidf <= 1.0 && 0.0 <= performance <= 1.0 ==>
      0.0 <= HybridScoringSystem(ml, tfidf, performance).finalScore <= 1.0
  {
  }

  /** Raising any one input never lowers the blend, and a TF-IDF gain of
      `d` raises it by exactly `0.3·d`. */
  lemma HybridMonotone(ml: real, tfidf: real, performance: real, ml2: real, tfidf2: real, performance2: real)
    requires ml <= ml2 && tfidf <= tfidf2 && performance <= performance2
    ensures HybridScoringSystem(ml, tfidf, performance).finalScore
         <= HybridScoringSystem(ml2, tfidf2, performance2).finalScore
    ensures HybridScoringSystem(ml, tfidf2, performance).finalScore
         == HybridScoringSystem(ml, tfidf, performance).finalScore + 0.3 * (tfidf2 - tfidf)
  {
  }

  /** The rationale mentions each factor at most once, in a fixed order,
      with the stronger phrase exactly above the higher threshold; it is
      empty (the default sentence) exactly when no factor clears its lower
      threshold. */
  lemma RationaleTiers(ml: real, tfidf: real, performance: real)
    ensures var r := SelectionRationale(ml, tfidf, performance);
      && (HighMlConfidence in r <==> ml > 0.8)
      && (ModerateMlConfidence in r <==> 0.6 < ml <= 0.8)
      && (StrongTfidfRelevance in r <==> tfidf > 0.7)
      && (GoodTfidfRelevance in r <==> 0.5 < tfidf <= 0.7)
      && (ExcellentPerformance in r <==> performance > 0.8)
      && (GoodPerformance in r <==> 0.6 < performance <= 0.8)
      && (r == [] <==> ml <= 0.6 && tfidf <= 0.5 && performance <= 0.6)
      && Distinct(r)
  {
    RationaleMembers(ml, tfidf, performance);
    RationaleDistinct(ml, tfidf, performance);
  }

  /** Which phrases a rationale holds. */
  lemma RationaleMembers(ml: real, tfidf: real, performance: real)
    ensures var r := SelectionRationale(ml, tfidf, performance);
      && (HighMlConfidence in r <==> ml > 0.8)
      && (ModerateMlConfidence in r <==> 0.6 < ml <= 0.8)
      && (StrongTfidfRelevance in r <==> tfidf > 0.7)
      && (GoodTfidfRelevance in r <==> 0.5 < tfidf <= 0.7)
      && (ExcellentPerformance in r <==> performance > 0.8)
      && (GoodPerformance in r <==> 0.6 < performance <= 0.8)
      && (r == [] <==> ml <= 0.6 && tfidf <= 0.5 && performance <= 0.6)
  {
    var a := if ml > 0.8 then [HighMlConfidence] else if ml > 0.6 then [ModerateMlConfidence] else [];
    var b := if tfidf > 0.7 then [StrongTfidfRelevance] else if tfidf > 0.5 then [GoodTfidfRelevance] else [];
    var c := if performance > 0.8 then [ExcellentPerformance] else if performance > 0.6 then [GoodPerformance] else [];
    var r := SelectionRationale(ml, tfidf, performance);
    assert r == a + b + c;
    assert forall p :: p in r <==> p in a || p in b || p in c;
  }

  /** No phrase appears twice in a rationale. */
  lemma RationaleDistinct(ml: real, tfidf: real, performance: real)
    ensures Distinct(SelectionRationale(ml, tfidf, performance))
  {
    var a := if ml > 0.8 then [HighMlConfidence] else if ml > 0.6 then [ModerateMlConfidence] else [];
    var b := if tfidf > 0.7 then [StrongTfidfRelevance] else if tfidf > 0.5 then [GoodTfidfRelevance] else [];
    var c := if performance > 0.8 then [ExcellentPerformance] else if performance > 0.6 then [GoodPerformance] else [];
    var r := SelectionRationale(ml, tfidf, performance);
    assert r == a + b + c;
    forall i, j | 0 <= i < j < |r|
      ensures r[i] != r[j]
    {
      if i < |a| {
        assert r[i] in a && r[j] !in a;
      } else if i < |a| + |b| {
        assert r[i] in b && r[j] in c;
      }
    }
  }

  // -------------------------------------------------------------------
  // Agent selection
  // -------------------------------------------------------------------

  /** A dict's `get(key, 0)`. */
  function ScoreOf(scores: map<string, real>, name: string): real {
    if name in scores then scores[name] else 0.0
  }

  /** The keys of an insertion-ordered dict held as its items. */
  function KeysOf<V>(items: seq<(string, V)>): set<string> {
    if items == [] then {} else {items[0].0} + KeysOf(items[1..])
  }

  /** `d[key] = value` on an insertion-ordered dict held as its items: an
      existing key keeps its place and takes the new value, a new key goes
      last. */
  function Put<V>(items: seq<(string, V)>, key: string, value: V): (r: seq<(string, V)>)
  {
    if items == [] then [(key, value)]
    else if items[0].0 == key then [(key, value)] + items[1..]
    else [items[0]] + Put(items[1..], key, value)
  }

  /** After `d[key] = value` the keys are the old ones plus `key`, the
      dict grows only for a new key, `key` maps to `value`, and every other
      entry is an old one. */
  lemma {:induction false} PutShape<V>(items: seq<(string, V)>, key: string, value: V)
    ensures KeysOf(Put(items, key, value)) == KeysOf(items) + {key}
    ensures |Put(items, key, value)| == if key in KeysOf(items) then |items| else |items| + 1
    ensures (key, value) in Put(items, key, value)
    ensures forall e :: e in Put(items, key, value) ==> e == (key, value) || e in items
  {
    if items != [] && items[0].0 != key {
      PutShape(items[1..], key, value);
    }
  }

  /** Keys can be read off the entries, so a reordering keeps them. */
  lemma {:induction false} KeysOfEntries<V>(items: seq<(string, V)>, k: string)
    ensures k in KeysOf(items) <==> exists e :: e in items && e.0 == k
  {
    if items != [] {
      KeysOfEntries(items[1..], k);
      if k != items[0].0 && exists e :: e in items && e.0 == k {
        var e :| e in items && e.0 == k;
        assert e in items[1..];
      }
    }
  }

  lemma KeysOfReordered<V>(a: seq<(string, V)>, b: seq<(string, V)>)
    requires multiset(a) == multiset(b)
    ensures KeysOf(a) == KeysOf(b)
  {
    forall k
      ensures k in KeysOf(a) <==> k in KeysOf(b)
    {
      KeysOfEntries(a, k);
      KeysOfEntries(b, k);
      if exists e :: e in a && e.0 == k {
        var e :| e in a && e.0 == k;
        assert e in multiset(b);
      }
      if exists e :: e in b && e.0 == k {
        var e :| e in b && e.0 == k;
        assert e in multiset(a);
      }
    }
  }

  /** The names of `agents`, each once. */
  function NamesOf(agents: seq<Agent>): set<string> {
    set a | a in agents :: a.name
  }

  lemma NamesOfSnoc(agents: seq<Agent>)
    requires agents != []
    ensures NamesOf(agents) == NamesOf(agents[..|agents| - 1]) + {agents[|agents| - 1].name}
  {
    var init := agents[..|agents| - 1];
    assert agents == init + [agents[|agents| - 1]];
    forall n | n in NamesOf(agents)
      ensures n in NamesOf(init) + {agents[|agents| - 1].name}
    {
      var a :| a in agents && a.name == n;
    }
    forall n | n in NamesOf(init)
      ensures n in NamesOf(agents)
    {
      var a :| a in init && a.name == n;
      assert a in agents;
    }
  }

  /** The blend of one agent's three scores, each read with `get(name, 0)`. */
  function Blend(name: string, ml: map<string, real>, tfidf: map<string, real>,
                 performance: map<string, real>): HybridScore
  {
    HybridScoringSystem(ScoreOf(ml, name), ScoreOf(tfidf, name), ScoreOf(performance, name))
  }

  /** The `final_scores` dict after the loop over `agents`. */
  function FinalScores(agents: seq<Agent>, ml: map<string, real>, tfidf: map<string, real>,
                       performance: map<string, real>): seq<(string, HybridScore)>
  {
    if agents == [] then []
    else
      var last := agents[|agents| - 1];
      Put(FinalScores(agents[..|agents| - 1], ml, tfidf, performance), last.name,
          Blend(last.name, ml, tfidf, performance))
  }

  /** The loop of `enhanced_agent_selection` that fills `final_scores`. */
  method CombineScores(agents: seq<Agent>, ml: map<string, real>, tfidf: map<string, real>,
                       performance: map<string, real>) returns (finalScores: seq<(string, HybridScore)>)
    ensures finalScores == FinalScores(agents, ml, tfidf, performance)
  {
    finalScores := [];
    var i := 0;
    while i < |agents|
      invariant 0 <= i <= |agents|
      invariant finalScores == FinalScores(agents[..i], ml, tfidf, performance)
    {
      var name := agents[i].name;
      var hybrid := HybridScoringSystem(ScoreOf(ml, name), ScoreOf(tfidf, name), ScoreOf(performance, name));
      assert agents[..i + 1][..i] == agents[..i];
      finalScores := Put(finalScores, name, hybrid);
      i := i + 1;
    }
    assert agents[..|agents|] == agents;
  }

  /** One entry per distinct agent name (a repeated name overwrites), each
      holding the blend of that name's scores. */
  lemma {:induction false} FinalScoresPerName(agents: seq<Agent>, ml: map<string, real>, tfidf: map<string, real>,
                                              performance: map<string, real>)
    ensures KeysOf(FinalScores(agents, ml, tfidf, performance)) == NamesOf(agents)
    ensures |FinalScores(agents, ml, tfidf, performance)| == |NamesOf(agents)|
    ensures forall e :: e in FinalScores(agents, ml, tfidf, performance) ==> e.1 == Blend(e.0, ml, tfidf, performance)
  {
    if agents != [] {
      var init := agents[..|agents| - 1];
      var last := agents[|agents| - 1];
      FinalScoresPerName(init, ml, tfidf, performance);
      PutShape(FinalScores(init, ml, tfidf, performance), last.name, Blend(last.name, ml, tfidf, performance));
      NamesOfSnoc(agents);
    }
  }

  /** The blended score of a `final_scores` entry, the sort key. */
  function EntryScore(e: (string, HybridScore)): real {
    e.1.finalScore
  }

  /** The largest blended score (`max(...)` over a non-empty dict). */
  function MaxScore(entries: seq<(string, HybridScore)>): (m: real)
    requires entries != []
    ensures exists e :: e in entries && EntryScore(e) == m
    ensures forall e :: e in entries ==> EntryScore(e) <= m
  {
    if |entries| == 1 then EntryScore(entries[0])
    else
      var rest := MaxScore(entries[1..]);
      assert forall e :: e in entries ==> e == entries[0] || e in entries[1..];
      if EntryScore(entries[0]) >= rest then EntryScore(entries[0]) else rest
  }

  datatype Selection = Selection(
    rankedAgents: seq<(string, HybridScore)>,
    selectionConfidence: real,
    recommendation: Option<(string, HybridScore)>)

  /** `max()` of an empty sequence raises `ValueError`. */
  datatype SelectionError = EmptyMaxArgument

  /** The stub scorers: the same score for every agent. */
  function StubScores(agents: seq<Agent>, score: real): (m: map<string, real>)
    ensures m.Keys == NamesOf(agents)
  {
    map n | n in NamesOf(agents) :: score
  }

  /** `enhanced_agent_selection`. The learned and performance scores come
      from the stub scorers (0.7 and 0.8 for every agent); the TF-IDF
      scores are a parameter. */
  function EnhancedAgentSelection(agents: seq<Agent>, tfidf: map<string, real>): (r: Result<Selection, SelectionError>)
  {
    var finalScores := FinalScores(agents, StubScores(agents, 0.7), tfidf, StubScores(agents, 0.8));
    var ranked := SortDescBy(finalScores, EntryScore);
    if finalScores == [] then Err(EmptyMaxArgument)
    else Ok(Selection(ranked, MaxScore(finalScores), Some(ranked[0])))
  }

  /** Agents are ranked best first, one entry per distinct name; the
      recommendation is the head of the ranking and the confidence is its
      score, the largest of all. With no agents the call fails, so the
      `None` recommendation is never produced. */
  lemma SelectionRanksBestFirst(agents: seq<Agent>, tfidf: map<string, real>)
    ensures var r := EnhancedAgentSelection(agents, tfidf);
      && (r.Err? <==> agents == [])
      && (r.Ok? ==>
        && r.value.recommendation == Some(r.value.rankedAgents[0])
        && r.value.selectionConfidence == EntryScore(r.value.rankedAgents[0])
        && (forall i, j :: 0 <= i < j < |r.value.rankedAgents| ==>
              EntryScore(r.value.rankedAgents[i]) >= EntryScore(r.value.rankedAgents[j]))
        && KeysOf(r.value.rankedAgents) == NamesOf(agents)
        && |r.value.rankedAgents| == |NamesOf(agents)|)
  {
    var f := FinalScores(agents, StubScores(agents, 0.7), tfidf, StubScores(agents, 0.8));
    FinalScoresPerName(agents, StubScores(agents, 0.7), tfidf, StubScores(agents, 0.8));
    var ranked := SortDescBy(f, EntryScore);
    SortDescByCorrect(f, EntryScore);
    KeysOfReordered(f, ranked);
    if agents != [] {
      assert agents[0].name in NamesOf(agents);
    }
    if f != [] {
      SortDescHeadIsMax(f, EntryScore);
      var m := MaxScore(f);
      var e :| e in f && EntryScore(e) == m;
    }
  }

  /** With the stub scorers every blend is 0.51 + 0.3·tfidf, so the
      ranking follows TF-IDF relevance alone. */
  lemma StubScoresFollowTfidf(agents: seq<Agent>, tfidf: map<string, real>)
    ensures forall e :: e in FinalScores(agents, StubScores(agents, 0.7), tfidf, StubScores(agents, 0.8)) ==>
      EntryScore(e) == 0.51 + 0.3 * ScoreOf(tfidf, e.0)
  {
    FinalScoresPerName(agents, StubScores(agents, 0.7), tfidf, StubScores(agents, 0.8));
    var f := FinalScores(agents, StubScores(agents, 0.7), tfidf, StubScores(agents, 0.8));
    forall e | e in f
      ensures EntryScore(e) == 0.51 + 0.3 * ScoreOf(tfidf, e.0)
    {
      KeysOfEntries(f, e.0);
      assert e.0 in NamesOf(agents);
    }
  }

  // -------------------------------------------------------------------
  // Requirements and capability matching
  // -------------------------------------------------------------------

  const CommonKeywords: seq<string> :=
    ["api", "database", "ui", "frontend", "backend", "security", "performance", "testing",
     "documentation", "deployment"]

  /** `extract_task_requirements`: the common keywords found (as
      substrings) in the lower-cased description, plus the technical
      terms the file-name pattern extracted, without duplicates. */
  function ExtractTaskRequirements(description: string, technicalTerms: seq<string>): (r: set<string>)
  {
    (set k | k in CommonKeywords && Contains(Lower(description), k)) + SetOf(technicalTerms)
  }

  /** A common keyword is required exactly when the text holds it (or it
      was extracted as a term); anything else comes from the terms. */
  lemma RequirementsFromKeywordsAndTerms(description: string, technicalTerms: seq<string>)
    ensures var r := ExtractTaskRequirements(description, technicalTerms);
      && (forall k :: k in CommonKeywords ==> (k in r <==> Contains(Lower(description), k) || k in technicalTerms))
      && (forall k :: k in r && k !in CommonKeywords ==> k in technicalTerms)
      && (forall k :: k in technicalTerms ==> k in r)
  {
  }

  /** One agent's entry in `calculate_capability_matches_enhanced`. */
  datatype CapabilityMatch = CapabilityMatch(
    matchScore: real,
    matched: set<string>,
    missing: set<string>,
    additional: set<string>)

  /** The capability words: the lower-cased capability text split on
      whitespace, as a set. */
  function CapabilityWords(capabilities: string): set<string> {
    SetOf(Words(Lower(capabilities)))
  }

  /** The match of a capability set against the requirements. */
  function MatchAgainst(caps: set<string>, requirements: set<string>): CapabilityMatch {
    var matched := caps * requirements;
    CapabilityMatch(
      if |requirements| > 0 then |matched| as real / |requirements| as real else 0.0,
      matched, requirements - caps, caps - requirements)
  }

  /** Matched and missing split the requirements, the additional
      capabilities lie outside them, and the score is the matched share:
      0 exactly when nothing matched (or nothing was required), 1 exactly
      when nothing is missing. */
  predicate SplitsRequirements(c: CapabilityMatch, requirements: set<string>) {
    && c.matched + c.missing == requirements && c.matched * c.missing == {}
    && c.matched <= requirements && (c.additional !! requirements)
    && 0.0 <= c.matchScore <= 1.0
    && (c.matchScore == 0.0 <==> requirements == {} || c.matched == {})
    && (c.matchScore == 1.0 <==> requirements != {} && c.missing == {})
  }

  lemma MatchAgainstSplits(caps: set<string>, requirements: set<string>)
    ensures SplitsRequirements(MatchAgainst(caps, requirements), requirements)
    ensures MatchAgainst(caps, requirements).matched + MatchAgainst(caps, requirements).additional == caps
  {
    var c := MatchAgainst(caps, requirements);
    assert requirements == c.matched + c.missing;
    assert |requirements| == |c.matched| + |c.missing|;
    Share(|c.matched|, |requirements|);
    if c.missing == {} {
      assert |c.matched| == |requirements|;
    }
    if |c.matched| == |requirements| {
      assert |c.missing| == 0;
    }
  }

  /** The returned dict after the loop over `agents` (a later agent of
      the same name overwrites an earlier one). */
  function CapabilityMatches(agents: seq<Agent>, requirements: set<string>): map<string, CapabilityMatch> {
    if agents == [] then map[]
    else
      var last := agents[|agents| - 1];
      CapabilityMatches(agents[..|agents| - 1], requirements)[last.name := MatchAgainst(CapabilityWords(last.capabilities), requirements)]
  }

  /** `calculate_capability_matches_enhanced`, given the requirements it
      extracts from the description. */
  method CalculateCapabilityMatches(agents: seq<Agent>, requirements: set<string>)
    returns (matches: map<string, CapabilityMatch>)
    ensures matches == CapabilityMatches(agents, requirements)
  {
    matches := map[];
    var i := 0;
    while i < |agents|
      invariant 0 <= i <= |agents|
      invariant matches == CapabilityMatches(agents[..i], requirements)
    {
      assert agents[..i + 1][..i] == agents[..i];
      matches := matches[agents[i].name := MatchAgainst(CapabilityWords(agents[i].capabilities), requirements)];
      i := i + 1;
    }
    assert agents[..|agents|] == agents;
  }

  /** Every agent gets an entry, and every entry splits the requirements
      as described above. */
  lemma {:induction false} CapabilityMatchesPartition(agents: seq<Agent>, requirements: set<string>)
    ensures CapabilityMatches(agents, requirements).Keys == NamesOf(agents)
    ensures forall n :: n in CapabilityMatches(agents, requirements) ==>
      SplitsRequirements(CapabilityMatches(agents, requirements)[n], requirements)
  {
    if agents != [] {
      var last := agents[|agents| - 1];
      CapabilityMatchesPartition(agents[..|agents| - 1], requirements);
      MatchAgainstSplits(CapabilityWords(last.capabilities), requirements);
      NamesOfSnoc(agents);
    }
  }

  // -------------------------------------------------------------------
  // Top candidates
  // -------------------------------------------------------------------

  /** `select_top_candidates_enhanced`: the matrix items sorted by blended
      score, best first, cut to three. The filters are not consulted. */
  function SelectTopCandidates(matrix: seq<(string, HybridScore)>): (r: seq<(string, HybridScore)>)
    ensures |r| == Min(3, |matrix|)
  {
    Take(SortDescBy(matrix, EntryScore), 3)
  }

  /** At most three candidates, best first, drawn from the matrix, and no
      left-out entry beats any chosen one. */
  lemma TopCandidatesAreBest(matrix: seq<(string, HybridScore)>)
    ensures var r := SelectTopCandidates(matrix);
      && (forall i, j :: 0 <= i < j < |r| ==> EntryScore(r[i]) >= EntryScore(r[j]))
      && multiset(r) <= multiset(matrix)
      && (forall e, i :: e in multiset(matrix) - multiset(r) && 0 <= i < |r| ==> EntryScore(e) <= EntryScore(r[i]))
  {
    TopOfSortDesc(matrix, EntryScore, 3);
  }
}
