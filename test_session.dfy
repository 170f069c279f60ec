/**
 * The harness's iteration loop. It keeps the combined pass and fail counts
 * of every run and the number of runs still to do. After a run it adds that
 * run's counts and counts the run down. While runs remain it runs every test
 * again; otherwise it schedules the cleanup, which reports the total.
 */
module TestSession {
  import opened Wrappers

  /** What one run of every test reports. */
  datatype Counts = Counts(passed: int, failed: int)

  /** What `nextIteration` does once the counters are updated. */
  datatype Next = RunTests | ScheduleCleanup

  /** The harness's counters: `results.passed`, `results.failed` and `iterationsLeft`. */
  datatype Progress = Progress(passed: int, failed: int, iterationsLeft: int)

  /** The counters after a run that reported `tests` has finished. */
  function Finish(p: Progress, tests: Counts): (q: Progress)
    ensures q.passed - p.passed == tests.passed && q.failed - p.failed == tests.failed
    ensures q.iterationsLeft == p.iterationsLeft - 1
  {
    Progress(p.passed + tests.passed, p.failed + tests.failed, p.iterationsLeft - 1)
  }

  /** `if (iterationsLeft)`: any non-zero count, negative ones too, means run again. */
  function Decide(p: Progress): (next: Next)
    ensures next == RunTests <==> p.iterationsLeft != 0
  {
    if p.iterationsLeft != 0 then RunTests else ScheduleCleanup
  }

  /** The counters after the runs `runs` have finished, in order. */
  function FinishAll(p: Progress, runs: seq<Counts>): Progress
    decreases |runs|
  {
    if runs == [] then p else FinishAll(Finish(p, runs[0]), runs[1..])
  }

  /** The passes reported by `runs`, added up. */
  function TotalPassed(runs: seq<Counts>): int {
    if runs == [] then 0 else runs[0].passed + TotalPassed(runs[1..])
  }

  /** The failures reported by `runs`, added up. */
  function TotalFailed(runs: seq<Counts>): int {
    if runs == [] then 0 else runs[0].failed + TotalFailed(runs[1..])
  }

  /** Finished runs add their counts to the combined results and each use up one iteration. */
  lemma {:induction false} FinishAllAccumulates(p: Progress, runs: seq<Counts>)
    ensures FinishAll(p, runs) ==
      Progress(p.passed + TotalPassed(runs), p.failed + TotalFailed(runs), p.iterationsLeft - |runs|)
    decreases |runs|
  {
    if runs != [] {
      FinishAllAccumulates(Finish(p, runs[0]), runs[1..]);
    }
  }

  /**
   * A session started with `iterations` runs to do keeps running tests until
   * exactly that many runs have finished; with a negative count it never
   * stops.
   */
  lemma RunsUntilIterationsUsed(p: Progress, runs: seq<Counts>)
    requires p.iterationsLeft < 0 || |runs| <= p.iterationsLeft
    ensures Decide(FinishAll(p, runs)) == RunTests <==> p.iterationsLeft < 0 || |runs| < p.iterationsLeft
  {
    FinishAllAccumulates(p, runs);
  }

  /** The harness's module-level counters, which every call updates in place. */
  class Session {
    var passed: int
    var failed: int
    var iterationsLeft: int

    /** The counters as a value. */
    function Current(): Progress
      reads this
    {
      Progress(passed, failed, iterationsLeft)
    }

    /** Module load: `results` starts at zero passes and zero failures. */
    constructor ()
      ensures passed == 0 && failed == 0 && iterationsLeft == 0
    {
      passed, failed, iterationsLeft := 0, 0, 0;
    }

    /** `runTests`: set the number of runs and make the first `nextIteration()` call, with no counts. */
    method Start(iterations: int) returns (next: Next)
      modifies this
      ensures Current() == old(Current()).(iterationsLeft := iterations)
      ensures next == Decide(Current())
    {
      iterationsLeft := iterations;
      next := NextIteration(None);
    }

    /**
     * `nextIteration(tests)`: when a run has reported, add its counts and
     * count the run down; then decide whether to run again.
     */
    method NextIteration(tests: Option<Counts>) returns (next: Next)
      modifies this
      ensures Current() == if tests.Some? then Finish(old(Current()), tests.value) else old(Current())
      ensures next == Decide(Current())
    {
      if tests.Some? {
        passed := passed + tests.value.passed;
        failed := failed + tests.value.failed;
        iterationsLeft := iterationsLeft - 1;
      }
      if iterationsLeft != 0 {
        next := RunTests;
      } else {
        next := ScheduleCleanup;
      }
    }

    /**
     * `cleanup`: a failure to unload the sandbox counts as one more failed
     * test; the total reported is passes plus failures, and the combined
     * counts are handed to the caller.
     */
    method Cleanup(unloadThrew: bool) returns (total: int, results: Counts)
      modifies this
      ensures passed == old(passed) && iterationsLeft == old(iterationsLeft)
      ensures failed == old(failed) + (if unloadThrew then 1 else 0)
      ensures total == passed + failed
      ensures results == Counts(passed, failed)
    {
      if unloadThrew {
        failed := failed + 1;
      }
      total := passed + failed;
      results := Counts(passed, failed);
    }
  }
}
