/** Collecting the results of parallel tasks: the completion and failure
    tests, the polling loop that gathers completed results until every task
    is accounted for or the deadline passes, and waiting for a list of
    tasks. The deadline is modelled as the number of polling passes that
    fit before it. */
module Synchronization {
  import opened Text
  import opened Values

  /** `_is_task_complete`: a dict result is complete when its status is
      `completed`; any other result is complete unless it is `None`. */
  predicate IsTaskComplete(result: Json) {
    match result
    case JObj(fields) => Get(fields, "status", JNull) == JStr("completed")
    case _ => result != JNull
  }

  /** `_is_task_failed`: only a dict result can fail, by a `failed` status
      or by carrying an error. */
  predicate IsTaskFailed(result: Json) {
    match result
    case JObj(fields) => Get(fields, "status", JNull) == JStr("failed") || Get(fields, "error", JNull) != JNull
    case _ => false
  }

  /** The two tests side by side: `None` is neither, a non-dict value is
      complete and never failed, and a dict can be both only when its
      status is `completed` and it carries an error. */
  lemma CompletionAndFailure(result: Json)
    ensures result == JNull ==> !IsTaskComplete(result) && !IsTaskFailed(result)
    ensures !result.JObj? && result != JNull ==> IsTaskComplete(result) && !IsTaskFailed(result)
    ensures IsTaskComplete(result) && IsTaskFailed(result) <==>
      result.JObj? && Get(result.fields, "status", JNull) == JStr("completed") && Get(result.fields, "error", JNull) != JNull
  {
  }

  /** The state of the polling loop: `synchronized_results` and
      `failed_tasks`. */
  datatype Progress = Progress(synchronized: map<string, Json>, failed: seq<string>)

  /** The body of the inner loop for one task. As written a failed task is
      appended again on every pass; with `skipRecorded` it is appended only
      the first time. */
  function Step(p: Progress, id: string, result: Json, skipRecorded: bool): Progress {
    if id in p.synchronized then p
    else if IsTaskComplete(result) then Progress(p.synchronized[id := result], p.failed)
    else if IsTaskFailed(result) && !(skipRecorded && id in p.failed) then Progress(p.synchronized, p.failed + [id])
    else p
  }

  /** One pass over the tasks in dict order. */
  function Sweep(order: seq<string>, results: map<string, Json>, p: Progress, skipRecorded: bool): Progress
    requires forall id :: id in order ==> id in results
  {
    if order == [] then p
    else
      var last := order[|order| - 1];
      Step(Sweep(order[..|order| - 1], results, p, skipRecorded), last, results[last], skipRecorded)
  }

  /** The exit test after a pass: as many ids recorded as there are tasks. */
  predicate AllAccountedFor(p: Progress, total: nat) {
    |p.synchronized| + |p.failed| == total
  }

  /** The outer loop: at most `passes` passes, stopping after the first
      pass whose exit test holds. */
  function Poll(order: seq<string>, results: map<string, Json>, p: Progress, passes: nat, skipRecorded: bool): Progress
    requires forall id :: id in order ==> id in results
    decreases passes
  {
    if passes == 0 then p
    else
      var q := Sweep(order, results, p, skipRecorded);
      if AllAccountedFor(q, |results|) then q else Poll(order, results, q, passes - 1, skipRecorded)
  }

  /** `SynchronizationResult`; the timestamp is not modelled. */
  datatype SynchronizationResult = SynchronizationResult(
    results: map<string, Json>,
    successRate: real,
    failedTasks: seq<string>)

  /** The outcome of `synchronize_parallel_results` over a dict with keys
      `order` (in iteration order) when `passes` passes fit before the
      deadline. */
  function SyncOutcome(order: seq<string>, results: map<string, Json>, passes: nat, skipRecorded: bool): SynchronizationResult
    requires forall id :: id in order ==> id in results
  {
    var p := Poll(order, results, Progress(map[], []), passes, skipRecorded);
    SynchronizationResult(p.synchronized,
      if |results| > 0 then |p.synchronized| as real / |results| as real else 0.0,
      p.failed)
  }

  /** `synchronize_parallel_results`: the polling loop. */
  method SynchronizeParallelResults(order: seq<string>, results: map<string, Json>, passes: nat, skipRecorded: bool)
    returns (r: SynchronizationResult)
    requires Distinct(order) && SetOf(order) == results.Keys
    ensures r == SyncOutcome(order, results, passes, skipRecorded)
  {
    var progress := Progress(map[], []);
    ghost var outcome := Poll(order, results, progress, passes, skipRecorded);
    var pass := 0;
    while pass < passes
      invariant 0 <= pass <= passes
      invariant Poll(order, results, progress, passes - pass, skipRecorded) == outcome
    {
      var next := SweepPass(order, results, progress, skipRecorded);
      if AllAccountedFor(next, |results|) {
        assert next == outcome;
        progress := next;
        break;
      }
      progress := next;
      pass := pass + 1;
    }
    assert progress == outcome;
    var rate := if |results| > 0 then |progress.synchronized| as real / |results| as real else 0.0;
    r := SynchronizationResult(progress.synchronized, rate, progress.failed);
  }

  /** One pass of the inner loop over the tasks. */
  method SweepPass(order: seq<string>, results: map<string, Json>, progress: Progress, skipRecorded: bool)
    returns (next: Progress)
    requires forall id :: id in order ==> id in results
    ensures next == Sweep(order, results, progress, skipRecorded)
  {
    next := progress;
    var i := 0;
    while i < |order|
      invariant 0 <= i <= |order|
      invariant next == Sweep(order[..i], results, progress, skipRecorded)
    {
      assert order[..i + 1][..i] == order[..i];
      next := Step(next, order[i], results[order[i]], skipRecorded);
      i := i + 1;
    }
    assert order[..|order|] == order;
  }

  // -------------------------------------------------------------------
  // What one pass collects
  // -------------------------------------------------------------------

  /** The completed results among `order`, under their ids. */
  function Completed(order: seq<string>, results: map<string, Json>): map<string, Json>
    requires forall id :: id in order ==> id in results
  {
    if order == [] then map[]
    else
      var last := order[|order| - 1];
      var m := Completed(order[..|order| - 1], results);
      if IsTaskComplete(results[last]) then m[last := results[last]] else m
  }

  /** The failed, not completed, ids among `order`, in order. */
  function FailedAmong(order: seq<string>, results: map<string, Json>): seq<string>
    requires forall id :: id in order ==> id in results
  {
    if order == [] then []
    else
      var last := order[|order| - 1];
      var f := FailedAmong(order[..|order| - 1], results);
      if !IsTaskComplete(results[last]) && IsTaskFailed(results[last]) then f + [last] else f
  }

  /** `Completed` holds exactly the completed tasks, with their results. */
  lemma {:induction false} CompletedMembers(order: seq<string>, results: map<string, Json>)
    requires forall id :: id in order ==> id in results
    ensures forall id :: id in Completed(order, results) <==> id in order && IsTaskComplete(results[id])
    ensures forall id :: id in Completed(order, results) ==> Completed(order, results)[id] == results[id]
  {
    if order != [] {
      CompletedMembers(order[..|order| - 1], results);
      assert order == order[..|order| - 1] + [order[|order| - 1]];
    }
  }

  /** `FailedAmong` holds exactly the failed tasks that are not complete. */
  lemma {:induction false} FailedAmongMembers(order: seq<string>, results: map<string, Json>)
    requires forall id :: id in order ==> id in results
    ensures forall id :: id in FailedAmong(order, results) <==>
      id in order && !IsTaskComplete(results[id]) && IsTaskFailed(results[id])
  {
    if order != [] {
      FailedAmongMembers(order[..|order| - 1], results);
      assert order == order[..|order| - 1] + [order[|order| - 1]];
    }
  }

  /** What the as-written pass records, starting from any state whose
      synchronized entries are completed results: every completed task not
      yet recorded, and every failed one appended again. */
  lemma {:induction false} SweepAsWritten(order: seq<string>, results: map<string, Json>, p: Progress)
    requires forall id :: id in order ==> id in results
    requires forall id :: id in p.synchronized ==> id in results && IsTaskComplete(results[id]) && p.synchronized[id] == results[id]
    ensures Sweep(order, results, p, false) == Progress(p.synchronized + Completed(order, results), p.failed + FailedAmong(order, results))
  {
    if order != [] {
      var init := order[..|order| - 1];
      var last := order[|order| - 1];
      SweepAsWritten(init, results, p);
      CompletedMembers(init, results);
      StepAsWritten(p.synchronized, Completed(init, results), p.failed, FailedAmong(init, results), last, results[last]);
    }
  }

  /** One as-written step on a state split into an earlier part and the
      part this pass has collected so far. */
  lemma StepAsWritten(earlier: map<string, Json>, collected: map<string, Json>, failed: seq<string>,
                      newlyFailed: seq<string>, id: string, v: Json)
    requires id in earlier + collected ==> (earlier + collected)[id] == v && IsTaskComplete(v)
    ensures Step(Progress(earlier + collected, failed + newlyFailed), id, v, false)
         == Progress(earlier + (if IsTaskComplete(v) then collected[id := v] else collected),
                     failed + (if !IsTaskComplete(v) && IsTaskFailed(v) then newlyFailed + [id] else newlyFailed))
  {
    var s := earlier + collected;
    if id in s {
      assert s == earlier + collected[id := v];
    } else if IsTaskComplete(v) {
      assert s[id := v] == earlier + collected[id := v];
    } else if IsTaskFailed(v) {
      assert failed + newlyFailed + [id] == failed + (newlyFailed + [id]);
    }
  }

  /** The shape of the as-written state after one or more passes without
      an early exit: the completed results, and the failed ids once per
      pass. */
  ghost predicate RepeatedFailures(order: seq<string>, results: map<string, Json>, p: Progress)
    requires forall id :: id in order ==> id in results
  {
    p.synchronized == Completed(order, results)
    && exists j: nat :: j >= 1 && p.failed == Repeat(FailedAmong(order, results), j)
  }

  lemma SweepRepeatsFailures(order: seq<string>, results: map<string, Json>, p: Progress)
    requires forall id :: id in order ==> id in results
    requires RepeatedFailures(order, results, p)
    ensures RepeatedFailures(order, results, Sweep(order, results, p, false))
  {
    var c := Completed(order, results);
    var f := FailedAmong(order, results);
    CompletedMembers(order, results);
    SweepAsWritten(order, results, p);
    var j: nat :| j >= 1 && p.failed == Repeat(f, j);
    assert c + c == c;
    assert Repeat(f, j + 1) == p.failed + f;
  }

  /** As written, every pass after the first appends the failed ids again,
      so each failed id is recorded once per pass run, while the
      synchronized results are exactly the completed ones. */
  lemma {:induction false} PollAsWritten(order: seq<string>, results: map<string, Json>, p: Progress, passes: nat)
    requires forall id :: id in order ==> id in results
    requires RepeatedFailures(order, results, p)
    ensures RepeatedFailures(order, results, Poll(order, results, p, passes, false))
    decreases passes
  {
    if passes > 0 {
      SweepRepeatsFailures(order, results, p);
      PollAsWritten(order, results, Sweep(order, results, p, false), passes - 1);
    }
  }

  /** `k` copies of `s`, one after the other. */
  function Repeat(s: seq<string>, k: nat): (r: seq<string>)
    ensures |r| == k * |s|
  {
    if k == 0 then [] else Repeat(s, k - 1) + s
  }

  /** The first as-written pass collects the completed results and the
      failed ids once. */
  lemma FirstSweepAsWritten(order: seq<string>, results: map<string, Json>)
    requires forall id :: id in order ==> id in results
    ensures RepeatedFailures(order, results, Sweep(order, results, Progress(map[], []), false))
  {
    var c := Completed(order, results);
    var f := FailedAmong(order, results);
    SweepAsWritten(order, results, Progress(map[], []));
    assert map[] + c == c && [] + f == f;
    assert Repeat(f, 1) == f;
  }

  /** As written, the loop started from nothing ends, after at least one
      pass, with the completed results and some number of copies of the
      failed ids. */
  lemma PollFromStartAsWritten(order: seq<string>, results: map<string, Json>, passes: nat)
    requires forall id :: id in order ==> id in results
    requires passes >= 1
    ensures RepeatedFailures(order, results, Poll(order, results, Progress(map[], []), passes, false))
  {
    var q := Sweep(order, results, Progress(map[], []), false);
    FirstSweepAsWritten(order, results);
    PollAsWritten(order, results, q, passes - 1);
    assert Poll(order, results, Progress(map[], []), passes, false)
        == if AllAccountedFor(q, |results|) then q else Poll(order, results, q, passes - 1, false);
  }

  /** The outcome as written once at least one pass fits: the
      synchronized results are exactly the completed tasks with their
      original values, every recorded failure is a failed task that is not
      complete, and the success rate is the completed share, in [0, 1]. */
  lemma SyncOutcomeAsWritten(order: seq<string>, results: map<string, Json>, passes: nat)
    requires Distinct(order) && SetOf(order) == results.Keys
    requires passes >= 1
    ensures var r := SyncOutcome(order, results, passes, false);
      && r.results == Completed(order, results)
      && (forall id :: id in r.failedTasks ==> id in results && !IsTaskComplete(results[id]) && IsTaskFailed(results[id]))
      && r.successRate == (if |results| > 0 then |Completed(order, results)| as real / |results| as real else 0.0)
      && 0.0 <= r.successRate <= 1.0
  {
    var c := Completed(order, results);
    var f := FailedAmong(order, results);
    PollFromStartAsWritten(order, results, passes);
    var p := Poll(order, results, Progress(map[], []), passes, false);
    var j: nat :| j >= 1 && p.failed == Repeat(f, j);
    RepeatMembers(f, j);
    FailedAmongMembers(order, results);
    CompletedMembers(order, results);
    SubsetSize(c.Keys, results.Keys);
    Share(|c.Keys|, |results.Keys|);
  }

  lemma {:induction false} RepeatMembers(s: seq<string>, k: nat)
    ensures forall x :: x in Repeat(s, k) ==> x in s
  {
    if k > 0 {
      RepeatMembers(s, k - 1);
    }
  }

  // -------------------------------------------------------------------
  // The early exit
  // -------------------------------------------------------------------

  /** A failed dict result and a pending one. */
  const FailedResult: Json := JObj(map["status" := JStr("failed")])

  /** As written: with task `a` failed and task `b` still pending, the
      second pass records `a` a second time, the exit test counts 0 + 2 = 2
      tasks and the loop stops although `b` was never settled and three
      more passes would have fit. */
  lemma PendingTaskCountedAsDone()
    ensures var r := SyncOutcome(["a", "b"], map["a" := FailedResult, "b" := JNull], 5, false);
      && r.failedTasks == ["a", "a"]
      && r.results == map[]
      && r.successRate == 0.0
  {
    var results := map["a" := FailedResult, "b" := JNull];
    var order := ["a", "b"];
    assert results.Keys == {"a", "b"};
    assert |results| == 2;
    assert IsTaskFailed(FailedResult) && !IsTaskComplete(FailedResult);
    assert order[..1] == ["a"] && ["a"][..0] == [];
    var p0 := Progress(map[], []);
    assert Sweep(["a"], results, p0, false) == Step(p0, "a", FailedResult, false) == Progress(map[], ["a"]);
    var p1 := Sweep(order, results, p0, false);
    assert p1 == Progress(map[], ["a"]);
    assert !AllAccountedFor(p1, 2);
    assert Sweep(["a"], results, p1, false) == Step(p1, "a", FailedResult, false) == Progress(map[], ["a", "a"]);
    var p2 := Sweep(order, results, p1, false);
    assert p2 == Progress(map[], ["a", "a"]);
    assert AllAccountedFor(p2, 2);
    assert Poll(order, results, p1, 4, false) == p2;
  }

  /** With failures recorded once, an early exit means what it says: every
      task is complete or failed. Recorded failures are distinct. */
  lemma SyncOutcomeFixed(order: seq<string>, results: map<string, Json>, passes: nat)
    requires Distinct(order) && SetOf(order) == results.Keys
    ensures var r := SyncOutcome(order, results, passes, true);
      && Distinct(r.failedTasks)
      && (forall id :: id in r.failedTasks ==> id in results && !IsTaskComplete(results[id]) && IsTaskFailed(results[id]))
      && (forall id :: id in r.results ==> id in results && IsTaskComplete(results[id]) && r.results[id] == results[id])
      && (|r.results| + |r.failedTasks| == |results| ==>
            forall id :: id in results ==> IsTaskComplete(results[id]) || IsTaskFailed(results[id]))
  {
    PollFixed(order, results, Progress(map[], []), passes);
    var p := Poll(order, results, Progress(map[], []), passes, true);
    if |p.synchronized| + |p.failed| == |results| {
      forall id | id in results
        ensures IsTaskComplete(results[id]) || IsTaskFailed(results[id])
      {
        SettledCount(results, p, id);
      }
    }
  }

  /** The fixed loop keeps: synchronized entries are completed results,
      recorded failures are distinct failed tasks that are not complete. */
  predicate FixedInvariant(results: map<string, Json>, p: Progress) {
    && Distinct(p.failed)
    && (forall id :: id in p.failed ==> id in results && !IsTaskComplete(results[id]) && IsTaskFailed(results[id]))
    && (forall id :: id in p.synchronized ==> id in results && IsTaskComplete(results[id]) && p.synchronized[id] == results[id])
  }

  lemma {:induction false} SweepFixed(order: seq<string>, results: map<string, Json>, p: Progress)
    requires forall id :: id in order ==> id in results
    requires FixedInvariant(results, p)
    ensures FixedInvariant(results, Sweep(order, results, p, true))
  {
    if order != [] {
      SweepFixed(order[..|order| - 1], results, p);
    }
  }

  lemma {:induction false} PollFixed(order: seq<string>, results: map<string, Json>, p: Progress, passes: nat)
    requires forall id :: id in order ==> id in results
    requires FixedInvariant(results, p)
    ensures FixedInvariant(results, Poll(order, results, p, passes, true))
    decreases passes
  {
    if passes > 0 {
      SweepFixed(order, results, p);
      PollFixed(order, results, Sweep(order, results, p, true), passes - 1);
    }
  }

  /** A state counting as many distinct ids as there are tasks, none of
      them both synchronized and failed, has settled every task. */
  lemma SettledCount(results: map<string, Json>, p: Progress, id: string)
    requires FixedInvariant(results, p)
    requires |p.synchronized| + |p.failed| == |results|
    requires id in results
    ensures IsTaskComplete(results[id]) || IsTaskFailed(results[id])
  {
    var f := SetOf(p.failed);
    DistinctSize(p.failed);
    assert p.synchronized.Keys !! f;
    assert |p.synchronized.Keys + f| == |p.synchronized.Keys| + |f|;
    if !(id in p.synchronized.Keys + f) {
      SubsetSize(p.synchronized.Keys + f, results.Keys - {id});
    }
  }

  lemma {:induction false} DistinctSize(s: seq<string>)
    requires Distinct(s)
    ensures |SetOf(s)| == |s|
  {
    if s != [] {
      var init := s[..|s| - 1];
      DistinctSize(init);
      assert SetOf(s) == SetOf(init) + {s[|s| - 1]};
    }
  }

  // -------------------------------------------------------------------
  // Waiting for tasks
  // -------------------------------------------------------------------

  /** Some probe among the first `n` passes reported `id` done. */
  predicate ReportedDone(check: (string, nat) -> bool, id: string, n: nat) {
    exists k :: 0 <= k < n && check(id, k)
  }

  /** `wait_for_tasks`: `check(id, k)` is what the status probe reports for
      `id` on pass `k`. A task's status is probed until it first reports
      done, and the wait ends early once every status is done. */
  method WaitForTasks(tasks: seq<string>, passes: nat, check: (string, nat) -> bool)
    returns (status: map<string, bool>)
    ensures status.Keys == SetOf(tasks)
    ensures forall id :: id in status ==> (status[id] <==> exists k :: 0 <= k < passes && check(id, k))
  {
    status := map id | id in tasks :: false;
    var pass := 0;
    while pass < passes
      invariant 0 <= pass <= passes
      invariant status.Keys == SetOf(tasks)
      invariant forall id :: id in status ==> (status[id] <==> ReportedDone(check, id, pass))
    {
      var i := 0;
      while i < |tasks|
        invariant 0 <= i <= |tasks|
        invariant status.Keys == SetOf(tasks)
        invariant forall id :: id in status ==>
          (status[id] <==> ReportedDone(check, id, pass) || (id in tasks[..i] && check(id, pass)))
      {
        var id := tasks[i];
        assert tasks[..i + 1] == tasks[..i] + [id];
        if !status[id] {
          status := status[id := check(id, pass)];
        }
        i := i + 1;
      }
      assert tasks[..|tasks|] == tasks;
      assert forall id :: ReportedDone(check, id, pass) || check(id, pass) <==> ReportedDone(check, id, pass + 1);
      pass := pass + 1;
      if forall id :: id in status ==> status[id] {
        break;
      }
    }
  }

  /** `_check_task_status`: no task tracking exists yet, so it reports
      nothing done and the wait always runs to its deadline. */
  method WaitForTasksUntracked(tasks: seq<string>, passes: nat) returns (status: map<string, bool>)
    ensures status.Keys == SetOf(tasks)
    ensures forall id :: id in status ==> !status[id]
  {
    status := WaitForTasks(tasks, passes, (id, k) => false);
  }
}
