/**
 * The harness's leak attributor. It reads a heap snapshot: a graph from
 * object id to the object's `parent` id, plus the named roots, which are
 * module global scopes, each with its object id. Every object is charged to
 * the first named root found by walking up its parent chain. An object whose
 * walk reaches an id missing from the graph is charged to "UNKNOWN". An
 * object whose chain ends without either is charged to nothing.
 */
module LeakAttributor {
  import opened Wrappers

  type Id = int

  /** The snapshot graph once its keys are integers: object id to its `parent` field (None when absent). */
  type Graph = map<Id, Option<Id>>

  /** `namedObjects` in enumeration order: (root name, object id) pairs. */
  type NamedObjects = seq<(string, Id)>

  /** The bucket for objects whose walk leaves the graph. */
  const UNKNOWN: string := "UNKNOWN"

  /** Where one object's walk ends. */
  datatype Outcome =
    | Credited(name: string)  // reached the id of the named root `name`
    | Dangling                // reached an id that is not in the graph
    | Unattributed            // reached a falsy parent first

  /** What the attributor reports: the object count, the module count and the tally per bucket. */
  datatype Report = Report(count: nat, modules: nat, moduleObjs: map<string, nat>)

  /** `while (parent)`: a parent field is followed only when present and non-zero. */
  predicate Truthy(p: Option<Id>) {
    p.Some? && p.value != 0
  }

  /** The names of all named roots. */
  function Names(named: NamedObjects): set<string> {
    set i | 0 <= i < |named| :: named[i].0
  }

  /** Every bucket the tally holds: "UNKNOWN" and each root name. */
  function Buckets(named: NamedObjects): (b: set<string>)
    ensures UNKNOWN in b && Names(named) <= b
  {
    {UNKNOWN} + Names(named)
  }

  /** `named[i]` is the last entry that gives root id `r` a name. */
  ghost predicate LastNaming(named: NamedObjects, r: Id, i: int) {
    0 <= i < |named| && named[i].1 == r &&
    forall j :: i < j < |named| ==> named[j].1 != r
  }

  /**
   * `moduleIds`: root id to root name, filled by `moduleIds[id] = name` in
   * enumeration order. An id shared by several names keeps the last one.
   */
  function RootIndex(named: NamedObjects): (ids: map<Id, string>)
    ensures ids.Keys == set i | 0 <= i < |named| :: named[i].1
  {
    if named == [] then map[]
    else
      var front := named[..|named| - 1];
      var last := named[|named| - 1];
      assert forall i :: 0 <= i < |front| ==> front[i] == named[i];
      RootIndex(front)[last.1 := last.0]
  }

  /** The name a root id ends up with is the one its last naming entry gives. */
  lemma {:induction false} RootIndexLastWriter(named: NamedObjects, r: Id) returns (i: int)
    requires r in RootIndex(named)
    ensures LastNaming(named, r, i) && named[i].0 == RootIndex(named)[r]
  {
    var front := named[..|named| - 1];
    var last := named[|named| - 1];
    if r == last.1 {
      i := |named| - 1;
    } else {
      i := RootIndexLastWriter(front, r);
      assert front[i] == named[i];
    }
  }

  /** Every root id is indexed under one of the root names. */
  lemma RootIndexNamed(named: NamedObjects)
    ensures forall r :: r in RootIndex(named) ==> RootIndex(named)[r] in Names(named)
  {
    forall r | r in RootIndex(named)
      ensures RootIndex(named)[r] in Names(named)
    {
      var i := RootIndexLastWriter(named, r);
    }
  }

  /**
   * The snapshot's parent chains terminate: `rank` drops along every step the
   * walk takes, from a non-root object in the graph to a non-root parent in
   * the graph. The source has no cycle guard; this is what it relies on.
   */
  ghost predicate Ranked(g: Graph, roots: set<Id>, rank: map<Id, nat>) {
    g.Keys <= rank.Keys &&
    forall x {:trigger g[x]} :: x in g && x !in roots && Truthy(g[x]) && g[x].value in g && g[x].value !in roots ==>
      rank[g[x].value] < rank[x]
  }

  /** Where the walk that starts at parent field `p` ends: the `while (parent)` loop. */
  ghost function Resolve(g: Graph, ids: map<Id, string>, p: Option<Id>, rank: map<Id, nat>): Outcome
    requires Ranked(g, ids.Keys, rank)
    decreases if Truthy(p) && p.value in g && p.value !in ids then rank[p.value] + 1 else 0
  {
    if !Truthy(p) then Unattributed
    else if p.value in ids then Credited(ids[p.value])
    else if p.value !in g then Dangling
    else Resolve(g, ids, g[p.value], rank)
  }

  /** The bucket an outcome increments, if any. */
  function Bucket(o: Outcome): Option<string> {
    match o
    case Credited(name) => Some(name)
    case Dangling => Some(UNKNOWN)
    case Unattributed => None
  }

  /** The objects of `objs` whose walk increments bucket `b`. */
  ghost function ChargedTo(g: Graph, ids: map<Id, string>, objs: set<Id>, b: string, rank: map<Id, nat>): set<Id>
    requires Ranked(g, ids.Keys, rank)
    requires objs <= g.Keys
  {
    set x | x in objs && Bucket(Resolve(g, ids, g[x], rank)) == Some(b)
  }

  /** The objects of `objs` whose walk increments some bucket. */
  ghost function Attributed(g: Graph, ids: map<Id, string>, objs: set<Id>, rank: map<Id, nat>): set<Id>
    requires Ranked(g, ids.Keys, rank)
    requires objs <= g.Keys
  {
    set x | x in objs && Bucket(Resolve(g, ids, g[x], rank)).Some?
  }

  /** The tally over buckets `keys` once the objects `objs` have been walked. */
  ghost function TallyOver(g: Graph, ids: map<Id, string>, keys: set<string>, objs: set<Id>, rank: map<Id, nat>): map<string, nat>
    requires Ranked(g, ids.Keys, rank)
    requires objs <= g.Keys
  {
    map b | b in keys :: |ChargedTo(g, ids, objs, b, rank)|
  }

  /** The tally once every object of the graph has been walked. */
  ghost function Tally(g: Graph, named: NamedObjects, rank: map<Id, nat>): map<string, nat>
    requires Ranked(g, RootIndex(named).Keys, rank)
  {
    TallyOver(g, RootIndex(named), Buckets(named), g.Keys, rank)
  }

  /** The sum of a tally's counts. */
  ghost function Sum(m: map<string, nat>): nat
    decreases m.Keys
  {
    if m == map[] then 0
    else
      var k :| k in m;
      m[k] + Sum(m - {k})
  }

  // ---------------------------------------------------------------------------
  // The walk
  // ---------------------------------------------------------------------------

  /** The inner `while (parent)` loop for one object whose parent field is `start`. */
  method Climb(graph: Graph, moduleIds: map<Id, string>, start: Option<Id>, ghost rank: map<Id, nat>)
    returns (outcome: Outcome)
    requires Ranked(graph, moduleIds.Keys, rank)
    ensures outcome == Resolve(graph, moduleIds, start, rank)
  {
    var parent := start;
    while Truthy(parent)
      invariant Resolve(graph, moduleIds, parent, rank) == Resolve(graph, moduleIds, start, rank)
      decreases if Truthy(parent) && parent.value in graph && parent.value !in moduleIds
        then rank[parent.value] + 1 else 0
    {
      if parent.value in moduleIds {
        return Credited(moduleIds[parent.value]);
      }
      if parent.value !in graph {
        return Dangling;
      }
      parent := graph[parent.value];
    }
    return Unattributed;
  }

  /** Ids the walk passes through without stopping: non-zero, in the graph, not a root. */
  ghost predicate PassesThrough(g: Graph, ids: map<Id, string>, x: Id) {
    x != 0 && x in g && x !in ids
  }

  /**
   * `chain` lists, in order, the ids a walk starting at parent field `p`
   * passes through: `p` itself first, then each one's parent.
   */
  ghost predicate IsClimb(g: Graph, ids: map<Id, string>, p: Option<Id>, chain: seq<Id>) {
    (chain != [] ==> p == Some(chain[0])) &&
    forall i :: 0 <= i < |chain| ==>
      PassesThrough(g, ids, chain[i]) && (i + 1 < |chain| ==> g[chain[i]] == Some(chain[i + 1]))
  }

  /** The parent field the walk holds after passing through `chain`. */
  ghost function After(g: Graph, p: Option<Id>, chain: seq<Id>): Option<Id>
    requires chain != [] ==> chain[|chain| - 1] in g
  {
    if chain == [] then p else g[chain[|chain| - 1]]
  }

  /** A parent field at which the walk stops. */
  ghost predicate Stops(g: Graph, ids: map<Id, string>, p: Option<Id>) {
    !Truthy(p) || p.value in ids || p.value !in g
  }

  /** Passing through a chain does not change where the walk ends. */
  lemma {:induction false} ResolveAlongClimb(g: Graph, ids: map<Id, string>, p: Option<Id>, chain: seq<Id>, rank: map<Id, nat>)
    requires Ranked(g, ids.Keys, rank)
    requires IsClimb(g, ids, p, chain)
    ensures Resolve(g, ids, p, rank) == Resolve(g, ids, After(g, p, chain), rank)
    decreases |chain|
  {
    if chain != [] {
      var rest := chain[1..];
      assert IsClimb(g, ids, g[chain[0]], rest) by {
        forall i | 0 <= i < |rest|
          ensures PassesThrough(g, ids, rest[i]) && (i + 1 < |rest| ==> g[rest[i]] == Some(rest[i + 1]))
        {
          assert rest[i] == chain[i + 1];
        }
      }
      ResolveAlongClimb(g, ids, g[chain[0]], rest, rank);
    }
  }

  /**
   * Where an object is charged is decided by where its climb stops: the
   * nearest root above it wins, even a root that is not in the graph; an
   * id missing from the graph that is not a root gives "UNKNOWN"; a falsy
   * parent gives nothing.
   */
  lemma {:induction false} ClimbDecides(g: Graph, ids: map<Id, string>, p: Option<Id>, chain: seq<Id>, rank: map<Id, nat>)
    requires Ranked(g, ids.Keys, rank)
    requires IsClimb(g, ids, p, chain)
    ensures var e := After(g, p, chain);
      && (!Truthy(e) ==> Resolve(g, ids, p, rank) == Unattributed)
      && (Truthy(e) && e.value in ids ==> Resolve(g, ids, p, rank) == Credited(ids[e.value]))
      && (Truthy(e) && e.value !in ids && e.value !in g ==> Resolve(g, ids, p, rank) == Dangling)
  {
    ResolveAlongClimb(g, ids, p, chain, rank);
  }

  /** Every walk is such a climb, ending where it stops. */
  lemma {:induction false} ClimbExists(g: Graph, ids: map<Id, string>, p: Option<Id>, rank: map<Id, nat>)
    returns (chain: seq<Id>)
    requires Ranked(g, ids.Keys, rank)
    ensures IsClimb(g, ids, p, chain)
    ensures Stops(g, ids, After(g, p, chain))
    decreases if Truthy(p) && p.value in g && p.value !in ids then rank[p.value] + 1 else 0
  {
    if Stops(g, ids, p) {
      chain := [];
    } else {
      var rest := ClimbExists(g, ids, g[p.value], rank);
      chain := [p.value] + rest;
      assert After(g, p, chain) == After(g, g[p.value], rest);
    }
  }

  /** The outcome does not depend on which ranking witnesses termination. */
  lemma {:induction false} ResolveRankIrrelevant(g: Graph, ids: map<Id, string>, p: Option<Id>, rank1: map<Id, nat>, rank2: map<Id, nat>)
    requires Ranked(g, ids.Keys, rank1) && Ranked(g, ids.Keys, rank2)
    ensures Resolve(g, ids, p, rank1) == Resolve(g, ids, p, rank2)
    decreases if Truthy(p) && p.value in g && p.value !in ids then rank1[p.value] + 1 else 0
  {
    if Truthy(p) && p.value in g && p.value !in ids {
      ResolveRankIrrelevant(g, ids, g[p.value], rank1, rank2);
    }
  }

  /** A walk only ever charges "UNKNOWN" or a bucket named by the root index. */
  lemma {:induction false} ResolveBucketKnown(g: Graph, ids: map<Id, string>, keys: set<string>, p: Option<Id>, rank: map<Id, nat>)
    requires Ranked(g, ids.Keys, rank)
    requires UNKNOWN in keys && forall r :: r in ids ==> ids[r] in keys
    ensures var b := Bucket(Resolve(g, ids, p, rank)); b.Some? ==> b.value in keys
    decreases if Truthy(p) && p.value in g && p.value !in ids then rank[p.value] + 1 else 0
  {
    if Truthy(p) && p.value !in ids && p.value in g {
      ResolveBucketKnown(g, ids, keys, g[p.value], rank);
    }
  }

  // ---------------------------------------------------------------------------
  // The tally
  // ---------------------------------------------------------------------------

  /** Before any object is walked, every bucket holds zero. */
  lemma TallyOverNothing(g: Graph, ids: map<Id, string>, keys: set<string>, rank: map<Id, nat>)
    requires Ranked(g, ids.Keys, rank)
    ensures TallyOver(g, ids, keys, {}, rank) == map b | b in keys :: 0
  {
    forall b | b in keys
      ensures ChargedTo(g, ids, {}, b, rank) == {}
    {
    }
  }

  /** Walking one more object adds it to the set charged to its own bucket and to no other. */
  lemma ChargedStep(g: Graph, ids: map<Id, string>, objs: set<Id>, x: Id, k: string, rank: map<Id, nat>)
    requires Ranked(g, ids.Keys, rank)
    requires objs <= g.Keys && x in g && x !in objs
    ensures |ChargedTo(g, ids, objs + {x}, k, rank)| ==
      |ChargedTo(g, ids, objs, k, rank)| + if Bucket(Resolve(g, ids, g[x], rank)) == Some(k) then 1 else 0
  {
    var before := ChargedTo(g, ids, objs, k, rank);
    var after := ChargedTo(g, ids, objs + {x}, k, rank);
    if Bucket(Resolve(g, ids, g[x], rank)) == Some(k) {
      assert after == before + {x};
    } else {
      assert after == before;
    }
  }

  /** Walking one more object adds one to its bucket, or nothing when it has none. */
  lemma TallyStep(g: Graph, ids: map<Id, string>, keys: set<string>, objs: set<Id>, x: Id, rank: map<Id, nat>)
    requires Ranked(g, ids.Keys, rank)
    requires objs <= g.Keys && x in g && x !in objs
    ensures var b := Bucket(Resolve(g, ids, g[x], rank));
      var before := TallyOver(g, ids, keys, objs, rank);
      TallyOver(g, ids, keys, objs + {x}, rank) ==
        if b.Some? && b.value in keys then before[b.value := before[b.value] + 1] else before
  {
    forall k | k in keys
      ensures |ChargedTo(g, ids, objs + {x}, k, rank)| ==
        |ChargedTo(g, ids, objs, k, rank)| + if Bucket(Resolve(g, ids, g[x], rank)) == Some(k) then 1 else 0
    {
      ChargedStep(g, ids, objs, x, k, rank);
    }
  }

  /** The tally update for one more object, by the outcome of its walk. */
  lemma TallyCharge(g: Graph, ids: map<Id, string>, keys: set<string>, objs: set<Id>, x: Id, outcome: Outcome, rank: map<Id, nat>)
    requires Ranked(g, ids.Keys, rank)
    requires UNKNOWN in keys && forall r :: r in ids ==> ids[r] in keys
    requires objs <= g.Keys && x in g && x !in objs
    requires outcome == Resolve(g, ids, g[x], rank)
    ensures var before := TallyOver(g, ids, keys, objs, rank);
      var after := TallyOver(g, ids, keys, objs + {x}, rank);
      match outcome
      case Credited(name) => name in before && after == before[name := before[name] + 1]
      case Dangling => after == before[UNKNOWN := before[UNKNOWN] + 1]
      case Unattributed => after == before
  {
    TallyStep(g, ids, keys, objs, x, rank);
    ResolveBucketKnown(g, ids, keys, g[x], rank);
  }

  /** Walking one more object adds one to the attributed objects exactly when it reaches a bucket. */
  lemma AttributedStep(g: Graph, ids: map<Id, string>, objs: set<Id>, x: Id, rank: map<Id, nat>)
    requires Ranked(g, ids.Keys, rank)
    requires objs <= g.Keys && x in g && x !in objs
    ensures |Attributed(g, ids, objs + {x}, rank)| ==
      |Attributed(g, ids, objs, rank)| + if Bucket(Resolve(g, ids, g[x], rank)).Some? then 1 else 0
  {
    var before := Attributed(g, ids, objs, rank);
    var after := Attributed(g, ids, objs + {x}, rank);
    if Bucket(Resolve(g, ids, g[x], rank)).Some? {
      assert after == before + {x};
    } else {
      assert after == before;
    }
  }

  /** Removing a key takes exactly its count off the sum. */
  lemma {:induction false} SumRemove(m: map<string, nat>, k: string)
    requires k in m
    ensures Sum(m) == m[k] + Sum(m - {k})
    decreases m.Keys
  {
    var k' :| k' in m && Sum(m) == m[k'] + Sum(m - {k'});
    if k' != k {
      SumRemove(m - {k'}, k);
      SumRemove(m - {k}, k');
      assert m - {k'} - {k} == m - {k} - {k'};
    }
  }

  /** Adding one to a count adds one to the sum. */
  lemma SumIncrement(m: map<string, nat>, k: string)
    requires k in m
    ensures Sum(m[k := m[k] + 1]) == Sum(m) + 1
  {
    var m' := m[k := m[k] + 1];
    SumRemove(m, k);
    SumRemove(m', k);
    assert m' - {k} == m - {k};
  }

  /** A tally of zeros sums to zero. */
  lemma {:induction false} SumZero(m: map<string, nat>)
    requires forall k :: k in m ==> m[k] == 0
    ensures Sum(m) == 0
    decreases m.Keys
  {
    if m != map[] {
      var k :| k in m;
      SumRemove(m, k);
      SumZero(m - {k});
    }
  }

  /** The sum of a tally counts each object that reached a bucket once. */
  lemma {:induction false} TallySum(g: Graph, ids: map<Id, string>, keys: set<string>, objs: set<Id>, rank: map<Id, nat>)
    requires Ranked(g, ids.Keys, rank)
    requires objs <= g.Keys
    requires UNKNOWN in keys && forall r :: r in ids ==> ids[r] in keys
    ensures Sum(TallyOver(g, ids, keys, objs, rank)) == |Attributed(g, ids, objs, rank)|
    decreases objs
  {
    if objs == {} {
      SumZero(TallyOver(g, ids, keys, objs, rank));
      assert Attributed(g, ids, objs, rank) == {};
    } else {
      if forall z :: z !in objs {
        assert false;
      }
      var y :| y in objs;
      var rest := objs - {y};
      assert rest + {y} == objs;
      TallySum(g, ids, keys, rest, rank);
      TallyStep(g, ids, keys, rest, y, rank);
      AttributedStep(g, ids, rest, y, rank);
      ResolveBucketKnown(g, ids, keys, g[y], rank);
      var b := Bucket(Resolve(g, ids, g[y], rank));
      if b.Some? {
        SumIncrement(TallyOver(g, ids, keys, rest, rank), b.value);
      }
    }
  }

  /**
   * The buckets together hold exactly the objects whose walk reached a root
   * or left the graph: each object is counted in at most one bucket, so the
   * sum never exceeds the object count.
   */
  lemma TallyAccountsForAttributed(g: Graph, named: NamedObjects, rank: map<Id, nat>)
    requires Ranked(g, RootIndex(named).Keys, rank)
    ensures Sum(Tally(g, named, rank)) == |Attributed(g, RootIndex(named), g.Keys, rank)|
    ensures Sum(Tally(g, named, rank)) <= |g|
  {
    var ids := RootIndex(named);
    RootIndexNamed(named);
    TallySum(g, ids, Buckets(named), g.Keys, rank);
    var attributed := Attributed(g, ids, g.Keys, rank);
    assert g.Keys == attributed + (g.Keys - attributed);
  }

  // ---------------------------------------------------------------------------
  // The attributor
  // ---------------------------------------------------------------------------

  /**
   * The loop over `namedObjects`: count the roots, give each root id its
   * name and open a zero count for "UNKNOWN" and every root name.
   */
  method IndexRoots(namedObjects: NamedObjects)
    returns (moduleIds: map<Id, string>, moduleObjs: map<string, nat>, modules: nat)
    ensures modules == |namedObjects|
    ensures moduleIds == RootIndex(namedObjects)
    ensures moduleObjs == map b | b in Buckets(namedObjects) :: 0
  {
    modules := 0;
    moduleIds := map[];
    moduleObjs := map[UNKNOWN := 0];
    for i := 0 to |namedObjects|
      invariant modules == i
      invariant moduleIds == RootIndex(namedObjects[..i])
      invariant moduleObjs.Keys == Buckets(namedObjects[..i])
      invariant forall b :: b in moduleObjs ==> moduleObjs[b] == 0
    {
      var (name, id) := namedObjects[i];
      assert namedObjects[..i + 1][..i] == namedObjects[..i];
      assert Names(namedObjects[..i + 1]) == Names(namedObjects[..i]) + {name} by {
        assert namedObjects[..i + 1][i] == namedObjects[i];
        assert forall j :: 0 <= j < i ==> namedObjects[..i + 1][j] == namedObjects[..i][j];
      }
      moduleObjs := moduleObjs[name := 0];
      moduleIds := moduleIds[id := name];
      modules := modules + 1;
    }
    assert namedObjects[..|namedObjects|] == namedObjects;
  }

  /**
   * One pass of the loop over the graph: walk up from object `id` and charge
   * the bucket its walk reaches, if any.
   */
  method ChargeObject(graph: Graph, moduleIds: map<Id, string>, moduleObjs: map<string, nat>, id: Id,
                      ghost keys: set<string>, ghost done: set<Id>, ghost rank: map<Id, nat>)
    returns (moduleObjs': map<string, nat>)
    requires Ranked(graph, moduleIds.Keys, rank)
    requires UNKNOWN in keys && forall r :: r in moduleIds ==> moduleIds[r] in keys
    requires done <= graph.Keys && id in graph && id !in done
    requires moduleObjs == TallyOver(graph, moduleIds, keys, done, rank)
    ensures moduleObjs' == TallyOver(graph, moduleIds, keys, done + {id}, rank)
  {
    var outcome := Climb(graph, moduleIds, graph[id], rank);
    TallyCharge(graph, moduleIds, keys, done, id, outcome, rank);
    moduleObjs' := moduleObjs;
    match outcome {
      case Credited(name) =>
        moduleObjs' := moduleObjs'[name := moduleObjs'[name] + 1];
      case Dangling =>
        moduleObjs' := moduleObjs'[UNKNOWN := moduleObjs'[UNKNOWN] + 1];
      case Unattributed =>
    }
  }

  /**
   * The loop over the graph: walk up from every object, charging the bucket
   * its walk reaches, and count the objects.
   */
  method ChargeObjects(graph: Graph, moduleIds: map<Id, string>, moduleObjs0: map<string, nat>, ghost rank: map<Id, nat>)
    returns (moduleObjs: map<string, nat>, count: nat)
    requires Ranked(graph, moduleIds.Keys, rank)
    requires UNKNOWN in moduleObjs0 && forall r :: r in moduleIds ==> moduleIds[r] in moduleObjs0
    requires forall b :: b in moduleObjs0 ==> moduleObjs0[b] == 0
    ensures count == |graph|
    ensures moduleObjs == TallyOver(graph, moduleIds, moduleObjs0.Keys, graph.Keys, rank)
  {
    ghost var keys := moduleObjs0.Keys;
    TallyOverNothing(graph, moduleIds, keys, rank);
    moduleObjs := moduleObjs0;
    count := 0;
    var todo := graph.Keys;
    ghost var done: set<Id> := {};
    while todo != {}
      invariant todo <= graph.Keys && done == graph.Keys - todo
      invariant count + |todo| == |graph.Keys|
      invariant moduleObjs == TallyOver(graph, moduleIds, keys, done, rank)
      decreases |todo|
    {
      if forall z :: z !in todo {
        assert false;
      }
      var id :| id in todo;
      moduleObjs := ChargeObject(graph, moduleIds, moduleObjs, id, keys, done, rank);
      todo := todo - {id};
      done := done + {id};
      count := count + 1;
    }
    assert done == graph.Keys;
  }

  /**
   * `analyzeRawProfilingData`: name every root, then walk up from every
   * object of the graph, counting objects and charging buckets.
   */
  method AnalyzeRawProfilingData(graph: Graph, namedObjects: NamedObjects, ghost rank: map<Id, nat>)
    returns (report: Report)
    requires Ranked(graph, RootIndex(namedObjects).Keys, rank)
    ensures report.count == |graph|
    ensures report.modules == |namedObjects|
    ensures report.moduleObjs.Keys == Buckets(namedObjects)
    ensures report.moduleObjs == Tally(graph, namedObjects, rank)
  {
    var moduleIds, moduleObjs, modules := IndexRoots(namedObjects);
    RootIndexNamed(namedObjects);
    var count;
    moduleObjs, count := ChargeObjects(graph, moduleIds, moduleObjs, rank);
    report := Report(count, modules, moduleObjs);
  }

  // ---------------------------------------------------------------------------
  // A worked snapshot
  // ---------------------------------------------------------------------------

  /**
   * Roots R1 (id 10, in the graph, whose own parent is R2) and R2 (id 20,
   * not in the graph). Objects 1 and 2 climb to R1 (2 through 1) and stop
   * there, although R2 is further up; the root object 10 itself climbs to
   * R2; 4 reaches id 99, which is nowhere; 5 (parent 0) reaches nothing.
   */
  const EXAMPLE_GRAPH: Graph :=
    map[1 := Some(10), 2 := Some(1), 4 := Some(99), 5 := Some(0), 10 := Some(20)]
  const EXAMPLE_NAMED: NamedObjects := [("R1", 10), ("R2", 20)]
  const EXAMPLE_RANK: map<Id, nat> := map[1 := 0, 2 := 1, 4 := 0, 5 := 0, 10 := 0]

  /** The example's root index, and a ranking that shows its walks end. */
  lemma ExampleRoots()
    ensures RootIndex(EXAMPLE_NAMED) == map[10 := "R1", 20 := "R2"]
    ensures Ranked(EXAMPLE_GRAPH, RootIndex(EXAMPLE_NAMED).Keys, EXAMPLE_RANK)
  {
    assert EXAMPLE_NAMED[..1] == [("R1", 10)];
    assert RootIndex(EXAMPLE_NAMED) == map[10 := "R1", 20 := "R2"];
  }

  /** Where each object of the example snapshot is charged. */
  lemma ExampleWalks()
    ensures Ranked(EXAMPLE_GRAPH, RootIndex(EXAMPLE_NAMED).Keys, EXAMPLE_RANK)
    ensures var g, ids, rank := EXAMPLE_GRAPH, RootIndex(EXAMPLE_NAMED), EXAMPLE_RANK;
      && Resolve(g, ids, g[1], rank) == Credited("R1")
      && Resolve(g, ids, g[2], rank) == Credited("R1")
      && Resolve(g, ids, g[4], rank) == Dangling
      && Resolve(g, ids, g[5], rank) == Unattributed
      && Resolve(g, ids, g[10], rank) == Credited("R2")
  {
    ExampleRoots();
    var g, ids, rank := EXAMPLE_GRAPH, RootIndex(EXAMPLE_NAMED), EXAMPLE_RANK;
    assert Resolve(g, ids, g[1], rank) == Credited("R1");
  }

  /** Which objects of the example each bucket gets. */
  lemma ExampleCharges()
    ensures Ranked(EXAMPLE_GRAPH, RootIndex(EXAMPLE_NAMED).Keys, EXAMPLE_RANK)
    ensures var g, ids, rank := EXAMPLE_GRAPH, RootIndex(EXAMPLE_NAMED), EXAMPLE_RANK;
      && ChargedTo(g, ids, g.Keys, UNKNOWN, rank) == {4}
      && ChargedTo(g, ids, g.Keys, "R1", rank) == {1, 2}
      && ChargedTo(g, ids, g.Keys, "R2", rank) == {10}
      && Attributed(g, ids, g.Keys, rank) == {1, 2, 4, 10}
  {
    ExampleWalks();
    assert EXAMPLE_GRAPH.Keys == {1, 2, 4, 5, 10};
  }

  /** A tally is fixed by how many objects each of its buckets is charged with. */
  lemma TallyOfCharges(g: Graph, ids: map<Id, string>, keys: set<string>, objs: set<Id>, rank: map<Id, nat>, m: map<string, nat>)
    requires Ranked(g, ids.Keys, rank) && objs <= g.Keys
    requires m.Keys == keys
    requires forall b :: b in keys ==> |ChargedTo(g, ids, objs, b, rank)| == m[b]
    ensures TallyOver(g, ids, keys, objs, rank) == m
  {
  }

  /** The example's tally: two objects for R1, one for R2, one for "UNKNOWN", one charged nowhere. */
  lemma ExampleSnapshot()
    ensures Ranked(EXAMPLE_GRAPH, RootIndex(EXAMPLE_NAMED).Keys, EXAMPLE_RANK)
    ensures Tally(EXAMPLE_GRAPH, EXAMPLE_NAMED, EXAMPLE_RANK) == map[UNKNOWN := 1, "R1" := 2, "R2" := 1]
    ensures |Attributed(EXAMPLE_GRAPH, RootIndex(EXAMPLE_NAMED), EXAMPLE_GRAPH.Keys, EXAMPLE_RANK)| == 4
  {
    ExampleCharges();
    var g, ids, rank := EXAMPLE_GRAPH, RootIndex(EXAMPLE_NAMED), EXAMPLE_RANK;
    var keys := Buckets(EXAMPLE_NAMED);
    assert keys == {UNKNOWN, "R1", "R2"} by { assert Names(EXAMPLE_NAMED) == {"R1", "R2"}; }
    assert |{4}| == 1 && |{1, 2}| == 2 && |{10}| == 1;
    TallyOfCharges(g, ids, keys, g.Keys, rank, map[UNKNOWN := 1, "R1" := 2, "R2" := 1]);
  }
}
