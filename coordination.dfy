/** Coordinating parallel work: launching every task and synchronizing
    their results, picking the best of competing results, and deciding
    between synthesizing partial results and re-running failures one by
    one. Launching, quality scoring, confidence, synthesis and the
    sequential fallback have no implementation yet and are parameters. */
module Coordination {
  import opened Text
  import opened Values
  import opened Synchronization

  /** A task to run; only its id is read here. */
  datatype Task = Task(id: string, body: Json)

  /** The `results` dict after the launch loop, as its ids in insertion
      order (each once, where it first appeared) and its entries (a later
      task with the same id overwrites the earlier launch result). */
  function Launched(tasks: seq<Task>, launch: Task -> Json): (r: (seq<string>, map<string, Json>))
    ensures Distinct(r.0) && SetOf(r.0) == r.1.Keys
  {
    if tasks == [] then ([], map[])
    else
      var (order, results) := Launched(tasks[..|tasks| - 1], launch);
      var last := tasks[|tasks| - 1];
      (if last.id in results then order else order + [last.id], results[last.id := launch(last)])
  }

  /** The launch loop gives one entry per distinct task id. */
  lemma {:induction false} LaunchedIds(tasks: seq<Task>, launch: Task -> Json)
    ensures Launched(tasks, launch).1.Keys == set t | t in tasks :: t.id
  {
    if tasks != [] {
      var init := tasks[..|tasks| - 1];
      var last := tasks[|tasks| - 1];
      LaunchedIds(init, launch);
      assert tasks == init + [last];
      assert (set t | t in tasks :: t.id) == (set t | t in init :: t.id) + {last.id};
    }
  }

  /** Each id holds the launch result of the last task with that id. */
  lemma {:induction false} LaunchedLastWins(tasks: seq<Task>, launch: Task -> Json, i: nat)
    requires i < |tasks|
    requires forall j :: i < j < |tasks| ==> tasks[j].id != tasks[i].id
    ensures tasks[i].id in Launched(tasks, launch).1
    ensures Launched(tasks, launch).1[tasks[i].id] == launch(tasks[i])
  {
    var init := tasks[..|tasks| - 1];
    if i < |tasks| - 1 {
      assert tasks[i] == init[i];
      forall j | i < j < |init|
        ensures init[j].id != init[i].id
      {
        assert init[j] == tasks[j];
      }
      LaunchedLastWins(init, launch, i);
    }
  }

  /** `execute_parallel_tasks_with_coordination`: launch each task, store
      its result under its id, then synchronize within the timeout
      (`passes` polling passes fit in its 30 seconds) with the polling loop
      as written, which appends a failed task again on every pass. */
  method ExecuteParallelTasksWithCoordination(tasks: seq<Task>, launch: Task -> Json, passes: nat)
    returns (r: SynchronizationResult)
    ensures r == SyncOutcome(Launched(tasks, launch).0, Launched(tasks, launch).1, passes, false)
  {
    var order: seq<string> := [];
    var results: map<string, Json> := map[];
    var i := 0;
    while i < |tasks|
      invariant 0 <= i <= |tasks|
      invariant (order, results) == Launched(tasks[..i], launch)
    {
      assert tasks[..i + 1][..i] == tasks[..i];
      if tasks[i].id !in results {
        order := order + [tasks[i].id];
      }
      results := results[tasks[i].id := launch(tasks[i])];
      i := i + 1;
    }
    assert tasks[..|tasks|] == tasks;
    r := SynchronizeParallelResults(order, results, passes, false);
  }

  /** After at least one pass, the coordinated outcome holds exactly the
      completed launch results, its success rate is their share of the
      distinct task ids, and every id it lists as failed is a task whose
      launch result failed without completing. */
  lemma CoordinationOutcome(tasks: seq<Task>, launch: Task -> Json, passes: nat)
    requires passes >= 1
    ensures var (order, results) := Launched(tasks, launch);
      var r := SyncOutcome(order, results, passes, false);
      && r.results == Completed(order, results)
      && (forall id :: id in r.failedTasks ==> id in results && !IsTaskComplete(results[id]) && IsTaskFailed(results[id]))
      && r.successRate == (if |results| > 0 then |Completed(order, results)| as real / |results| as real else 0.0)
      && 0.0 <= r.successRate <= 1.0
  {
    var (order, results) := Launched(tasks, launch);
    SyncOutcomeAsWritten(order, results, passes);
  }

  /** Launching two tasks with different ids. */
  lemma LaunchedTwo(a: Task, b: Task, launch: Task -> Json)
    requires a.id != b.id
    ensures Launched([a, b], launch) == ([a.id, b.id], map[a.id := launch(a), b.id := launch(b)])
  {
    var empty: seq<Task> := [];
    assert Launched(empty, launch).0 == [];
    assert Launched(empty, launch).1 == map[];
    assert [a][..0] == empty;
    assert Launched([a], launch).0 == [a.id];
    assert Launched([a], launch).1 == map[a.id := launch(a)];
    assert [a, b][..1] == [a];
    assert Launched([a, b], launch).0 == [a.id, b.id];
    assert Launched([a, b], launch).1 == map[a.id := launch(a), b.id := launch(b)];
  }

  /** The coordinator inherits the double count of the polling loop: a
      failed task `a` and a pending task `b` end with `a` listed twice and
      `b` settled neither way. */
  lemma CoordinatedPendingTaskCountedAsDone(launch: Task -> Json)
    requires launch(Task("a", JNull)) == FailedResult && launch(Task("b", JNull)) == JNull
    ensures var (order, results) := Launched([Task("a", JNull), Task("b", JNull)], launch);
      var r := SyncOutcome(order, results, 5, false);
      r.failedTasks == ["a", "a"] && r.results == map[]
  {
    LaunchedTwo(Task("a", JNull), Task("b", JNull), launch);
    PendingTaskCountedAsDone();
  }

  // -------------------------------------------------------------------
  // Competitive selection
  // -------------------------------------------------------------------

  /** `(best_result, best_score)` after the selection loop over `results`:
      a result replaces the current best only with a strictly greater
      score, starting from no result and score 0. */
  function Best<T>(results: seq<T>, quality: T -> real): (Option<T>, real)
  {
    if results == [] then (None, 0.0)
    else
      var prev := Best(results[..|results| - 1], quality);
      var last := results[|results| - 1];
      if quality(last) > prev.1 then (Some(last), quality(last)) else prev
  }

  /** The reported score bounds every score and is 0 or more; nothing is
      selected exactly when no score is above 0, and the score is then 0. */
  lemma {:induction false} BestBounds<T>(results: seq<T>, quality: T -> real)
    ensures var (best, score) := Best(results, quality);
      && score >= 0.0
      && (forall i :: 0 <= i < |results| ==> quality(results[i]) <= score)
      && (best.None? <==> forall i :: 0 <= i < |results| ==> quality(results[i]) <= 0.0)
      && (best.None? ==> score == 0.0)
  {
    if results != [] {
      var init := results[..|results| - 1];
      BestBounds(init, quality);
      assert forall i :: 0 <= i < |init| ==> results[i] == init[i];
    }
  }

  /** A selected result is the first one with the reported score, and it
      has that score. */
  lemma {:induction false} BestIsFirst<T>(results: seq<T>, quality: T -> real)
    ensures var (best, score) := Best(results, quality);
      best.Some? ==> exists i :: 0 <= i < |results| && results[i] == best.value && quality(results[i]) == score
                                 && forall j :: 0 <= j < i ==> quality(results[j]) < score
  {
    if results != [] {
      var init := results[..|results| - 1];
      var last := results[|results| - 1];
      BestIsFirst(init, quality);
      BestBounds(init, quality);
      var (b, s) := Best(init, quality);
      if quality(last) > s {
        assert forall j :: 0 <= j < |init| ==> quality(results[j]) < quality(last) by {
          forall j | 0 <= j < |init| ensures quality(results[j]) < quality(last) {
            assert results[j] == init[j];
          }
        }
        assert results[|init|] == last;
      } else if b.Some? {
        var i :| 0 <= i < |init| && init[i] == b.value && quality(init[i]) == s
                 && forall j :: 0 <= j < i ==> quality(init[j]) < s;
        assert results[i] == init[i];
        assert forall j :: 0 <= j < i ==> results[j] == init[j];
      }
    }
  }

  /** The selection finds the first result with the greatest score, if
      that score is positive; nothing is selected when no result scores
      above 0, and the reported score is then 0. */
  lemma BestIsFirstMaximum<T>(results: seq<T>, quality: T -> real)
    ensures var (best, score) := Best(results, quality);
      && score >= 0.0
      && (forall r :: r in results ==> quality(r) <= score)
      && (best.None? <==> forall r :: r in results ==> quality(r) <= 0.0)
      && (best.None? ==> score == 0.0)
      && (best.Some? ==> exists i :: 0 <= i < |results| && results[i] == best.value && quality(results[i]) == score
                                   && forall j :: 0 <= j < i ==> quality(results[j]) < score)
  {
    BestBounds(results, quality);
    BestIsFirst(results, quality);
  }

  /** `select_best_competitive_result`. */
  method SelectBestCompetitiveResult<T>(results: seq<T>, quality: T -> real, confidenceOf: (real, seq<T>) -> real)
    returns (best: Option<T>, confidence: real)
    ensures best == Best(results, quality).0
    ensures confidence == confidenceOf(Best(results, quality).1, results)
  {
    best := None;
    var bestScore := 0.0;
    var i := 0;
    while i < |results|
      invariant 0 <= i <= |results|
      invariant (best, bestScore) == Best(results[..i], quality)
    {
      assert results[..i + 1][..i] == results[..i];
      var score := quality(results[i]);
      if score > bestScore {
        bestScore := score;
        best := Some(results[i]);
      }
      i := i + 1;
    }
    assert results[..|results|] == results;
    confidence := confidenceOf(bestScore, results);
  }

  // -------------------------------------------------------------------
  // Partial failure
  // -------------------------------------------------------------------

  /** What `handle_partial_parallel_failure` hands on to. */
  datatype PartialFailurePlan<T, R> =
    | SynthesizePartialResults(successful: seq<R>)
    | FallbackToSequentialExecution(failed: seq<T>)

  function HandlePartialParallelFailure<T, R>(failedTasks: seq<T>, successfulResults: seq<R>): (plan: PartialFailurePlan<T, R>)
  {
    if |successfulResults| >= |failedTasks| then SynthesizePartialResults(successfulResults)
    else FallbackToSequentialExecution(failedTasks)
  }

  /** Successes are synthesized exactly when they are at least as many as
      the failures (so also when both lists are empty); otherwise exactly
      the failed tasks are re-run in sequence. */
  lemma PartialFailureTriage<T, R>(failedTasks: seq<T>, successfulResults: seq<R>)
    ensures HandlePartialParallelFailure(failedTasks, successfulResults).SynthesizePartialResults?
        <==> |successfulResults| >= |failedTasks|
    ensures HandlePartialParallelFailure(failedTasks, successfulResults).SynthesizePartialResults? ==>
        HandlePartialParallelFailure(failedTasks, successfulResults).successful == successfulResults
    ensures HandlePartialParallelFailure(failedTasks, successfulResults).FallbackToSequentialExecution? ==>
        HandlePartialParallelFailure(failedTasks, successfulResults).failed == failedTasks
             && failedTasks != []
    ensures HandlePartialParallelFailure<T, R>([], []).SynthesizePartialResults?
  {
  }
}
