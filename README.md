# Jetpack test harness core, in Dafny

This project models the core of the Jetpack SDK's test harness,
`harness/chrome/content/harness.js`. It has three parts.

- **Leak attributor** (`leak_attributor.dfy`, module `LeakAttributor`).
  `analyzeRawProfilingData` takes a heap snapshot. The snapshot maps each
  object id to its `parent` id. It also names some roots, the module global
  scopes, each with an object id. The attributor counts the objects and the
  named roots. It walks up each object's parent chain:
  - the walk stops at the first named root it reaches, and charges that
    root's bucket;
  - a walk that reaches an id missing from the graph charges the `UNKNOWN`
    bucket;
  - a walk that reaches a falsy parent (absent or 0) charges nothing.

  The model has two layers:
  - **Specification.** `Resolve` is a ghost function that says where one walk
    ends. `Tally` is the tally that follows from it.
  - **Imperative layer.** It mirrors the source's loops: `IndexRoots` is the
    loop over `namedObjects`, `Climb` is the inner `while (parent)` loop,
    `ChargeObject` and `ChargeObjects` are the loop over the graph, and
    `AnalyzeRawProfilingData` puts them together.

  Each method is proved against the specification layer. The lemmas then show:
  - where an object is charged (the nearest root wins);
  - that every walk stops;
  - that the buckets together hold exactly the objects whose walk reached a
    root or left the graph, so their sum is at most the object count.
- **Iteration loop** (`test_session.dfy`, module `TestSession`). The class
  `Session` holds the harness's module-level counters: `results.passed`,
  `results.failed` and `iterationsLeft`. Its methods update them in place:
  - `runTests` starts a session;
  - `nextIteration` adds a finished run's counts and counts the run down;
  - `cleanup` reports the total.

  The pure functions `Finish` and `Decide` specify one step. The lemmas show
  how many runs a session performs.
- **Console filter** (`console_filter.dfy`, module `ConsoleFilter`). The
  console listener echoes a console message unless it starts with one of
  the `POINTLESS_ERRORS` prefixes.

`wrappers.dfy` holds the `Option` type the other modules share.

Ids are mathematical integers. The snapshot graph is a map from an object id
to its `parent` field, which is `None` when the field is absent.
`namedObjects` is a sequence of (name, id) pairs in enumeration order.

The source has no cycle guard. A parent chain that loops through non-root
objects in the graph makes `while (parent)` run forever. The model therefore
asks for a ranking of the graph's ids (`Ranked`) that drops along every step
the walk takes. Such a ranking exists exactly when no such loop exists, so
it excludes only the snapshots on which the source never returns. The
ranking is ghost, and the results do not depend on which ranking is chosen
(`ResolveRankIrrelevant`).

## Model

| member | source | states |
|---|---|---|
| LeakAttributor.Buckets | harness/chrome/content/harness.js:77-79 | the tally opens a bucket for `UNKNOWN` and for every root name |
| LeakAttributor.RootIndex | harness/chrome/content/harness.js:76-80 | `moduleIds` has exactly the root ids of `namedObjects` as keys |
| LeakAttributor.RootIndexLastWriter | harness/chrome/content/harness.js:78-80 | a root id shared by several entries ends up with the name of the last entry that gives it one |
| LeakAttributor.RootIndexNamed | harness/chrome/content/harness.js:78-80 | every name in `moduleIds` is one of the root names, so it has a bucket |
| LeakAttributor.IndexRoots | harness/chrome/content/harness.js:75-82 | the loop over `namedObjects` counts every entry in `modules`, builds the root index, and opens a zero count for `UNKNOWN` and each root name |
| LeakAttributor.Climb | harness/chrome/content/harness.js:86-98 | the `while (parent)` loop ends with the outcome the walk specification gives: the root reached, a dangling id, or nothing |
| LeakAttributor.ResolveAlongClimb | harness/chrome/content/harness.js:87-98 | passing through non-root ids in the graph does not change where a walk ends |
| LeakAttributor.ClimbDecides | harness/chrome/content/harness.js:87-98 | the first stop decides: a falsy parent charges nothing; a root is credited even when it is also in the graph, because the root test comes first, so the nearest root wins; an id that is neither a root nor in the graph charges `UNKNOWN` |
| LeakAttributor.ClimbExists | harness/chrome/content/harness.js:87-98 | every walk passes through a finite chain of ids and stops at a falsy parent, a root, or an id missing from the graph |
| LeakAttributor.ResolveRankIrrelevant | harness/chrome/content/harness.js:87-98 | where a walk ends does not depend on the ranking used to show it stops |
| LeakAttributor.ResolveBucketKnown | harness/chrome/content/harness.js:88-95 | a walk only ever increments `UNKNOWN` or a root name's bucket, so every increment lands on an opened count |
| LeakAttributor.TallyOverNothing | harness/chrome/content/harness.js:77-79 | before any object is walked, every bucket holds zero |
| LeakAttributor.ChargedStep | harness/chrome/content/harness.js:85-99 | walking one more object adds it to its own bucket's objects and to no other bucket's |
| LeakAttributor.TallyStep | harness/chrome/content/harness.js:85-99 | walking one more object adds one to at most one bucket, the one its walk reaches |
| LeakAttributor.TallyCharge | harness/chrome/content/harness.js:88-96 | one object adds one to its root's bucket when credited, one to `UNKNOWN` when dangling, and nothing otherwise |
| LeakAttributor.AttributedStep | harness/chrome/content/harness.js:85-99 | walking one more object adds one to the attributed objects exactly when its walk reaches a bucket |
| LeakAttributor.TallySum | harness/chrome/content/harness.js:84-100 | the counts of any partial tally sum to the number of walked objects that reached a bucket |
| LeakAttributor.TallyAccountsForAttributed | harness/chrome/content/harness.js:84-100 | the final counts sum to the number of objects that reached a root or left the graph, which is at most the object count |
| LeakAttributor.ChargeObject | harness/chrome/content/harness.js:85-99 | one pass of the graph loop turns the tally over the objects walked so far into the tally with one more object |
| LeakAttributor.ChargeObjects | harness/chrome/content/harness.js:84-100 | the graph loop counts every object and leaves the tally over all of them |
| LeakAttributor.AnalyzeRawProfilingData | harness/chrome/content/harness.js:63-105 | `count` is the number of objects, `modules` the number of root entries, the buckets are `UNKNOWN` and the root names, and each bucket holds the number of objects whose walk ends there |
| LeakAttributor.ExampleRoots | harness/chrome/content/harness.js:75-82 | in the example, two roots are indexed under their names and every walk stops |
| LeakAttributor.ExampleWalks | harness/chrome/content/harness.js:84-100 | in the example, a walk stops at the nearer of two roots, a root object is charged by its own parent rather than by its own id, an unknown id gives a dangling walk, and parent 0 gives nothing |
| LeakAttributor.ExampleCharges | harness/chrome/content/harness.js:84-100 | in the example, the objects charged to each bucket, and the objects charged anywhere |
| LeakAttributor.TallyOfCharges | harness/chrome/content/harness.js:84-100 | a tally is determined by how many objects each bucket is charged with |
| LeakAttributor.ExampleSnapshot | harness/chrome/content/harness.js:63-105 | the example's complete tally is `UNKNOWN`: 1, `R1`: 2, `R2`: 1, with one object charged nowhere |
| TestSession.Finish | harness/chrome/content/harness.js:178-183 | after a run that reported counts, passed and failed grow by exactly those counts and `iterationsLeft` drops by one |
| TestSession.Decide | harness/chrome/content/harness.js:184-188 | tests run again exactly when `iterationsLeft` is non-zero, negative values included; otherwise cleanup is scheduled |
| TestSession.FinishAllAccumulates | harness/chrome/content/harness.js:177-189 | after any series of runs, the counters hold the initial counts plus every run's counts, and `iterationsLeft` has dropped by the number of runs |
| TestSession.RunsUntilIterationsUsed | harness/chrome/content/harness.js:177-189 | a session started with n runs keeps running tests until exactly n runs have finished; with a negative count it never schedules cleanup |
| TestSession.Session.constructor | harness/chrome/content/harness.js:60-61 | the combined results start at zero passed and zero failed |
| TestSession.Session.Start | harness/chrome/content/harness.js:218-250 | `runTests` sets `iterationsLeft` to the requested count, leaves the results alone, and its first `nextIteration()` call decides on that count |
| TestSession.Session.NextIteration | harness/chrome/content/harness.js:177-189 | with a run's counts, the counters advance as `Finish` says; without them, nothing changes; then tests run again exactly when runs remain |
| TestSession.Session.Cleanup | harness/chrome/content/harness.js:142-175 | a failed unload adds one failure; the total reported is passed plus failed, and the combined results are handed on |
| ConsoleFilter.IndexOf | harness/chrome/content/harness.js:199 | `indexOf` gives the first position at which the pattern occurs, or -1 exactly when it occurs nowhere |
| ConsoleFilter.Pointless | harness/chrome/content/harness.js:198-199 | the list holds exactly the entries of `POINTLESS_ERRORS` the message starts with |
| ConsoleFilter.Observe | harness/chrome/content/harness.js:195-203 | a message is echoed, as `console: ` followed by the message, exactly when it starts with no entry of `POINTLESS_ERRORS` |

## Left out

- Host services are not part of this model:
  - the console service registration and unregistration;
  - the Cuddlefish loader and sandbox;
  - `findAndRunTests`;
  - the timer that schedules `cleanup`;
  - `onDone`.

  `Next` stands for "run every test again" or "schedule cleanup".
- The memory profiler, `reportMemoryUsage`, the memory reporters and the weak-reference leak scan in `cleanup` are left out. They are I/O on host objects. `cleanup`'s only effect on the counters is kept: one extra failure when unloading throws (`unloadThrew`).
- The `runTests` exception path, which reports `{passed: 0, failed: 1}` directly, is left out. It depends on host exceptions.
- Printing is left out: the report lines, the pass summary and the echoed console line. The model returns the values that would be printed. `TestRunnerConsole` is left out too. When not verbose, its `info` prints "." only for a first argument of "pass:".
- `parseInt` coercion of the graph's keys is left out. Keys are already integers in the model. The source could merge two string keys that parse to the same integer, or produce `NaN` keys; neither is modelled.
- JavaScript property-name quirks are left out:
  - a root named `__proto__`;
  - `in` matching inherited array properties;
  - root ids that are not integers.
- The order of `for (id in graph)` is left out. `ChargeObjects` picks objects in any order, and its result does not depend on the order.
- A root named "UNKNOWN" shares the `UNKNOWN` bucket, as in the source. The model's buckets form a set.
- AnalyzeRawProfilingData: requires a ranking (`Ranked`) of the snapshot's ids. The source has no cycle guard and never returns on a cyclic parent chain, so there is no result to model for such a snapshot.
- Climb, ChargeObject, ChargeObjects: take the same ranking as a ghost parameter. It is used only to show that the loops terminate.
