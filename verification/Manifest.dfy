/** The plan manifest: validation with Kahn's algorithm, and the scheduler that picks ready plans. */
module Manifest {

  datatype PlanEntry = PlanEntry(id: int, title: string, phases: seq<string>, blocksOn: seq<int>)

  datatype PlanManifest = PlanManifest(specPath: string, plans: seq<PlanEntry>)

  datatype ManifestError =
    | SpecPathRequired
    | PlansEmpty
    | IdNotPositive(index: nat, id: int)
    | TitleEmpty(index: nat, id: int)
    | DuplicateId(id: int)
    | UnknownDependency(index: nat, id: int, dep: int)
    | GraphHasCycle

  datatype Outcome = Accepted | Rejected(error: ManifestError)

  // ---- The dependency graph ----

  function Ids(plans: seq<PlanEntry>): set<int> {
    set k | 0 <= k < |plans| :: plans[k].id
  }

  lemma IdsTake(plans: seq<PlanEntry>, i: nat)
    requires i < |plans|
    ensures Ids(plans[..i + 1]) == Ids(plans[..i]) + {plans[i].id}
    ensures plans[i].id in Ids(plans[..i]) <==> exists k :: 0 <= k < i && plans[k].id == plans[i].id
  {
    assert plans[..i + 1] == plans[..i] + [plans[i]];
    assert forall k :: 0 <= k < i ==> plans[..i][k] == plans[k];
    assert forall k :: 0 <= k < i ==> plans[..i + 1][k] == plans[k];
  }

  ghost predicate DependsOn(plans: seq<PlanEntry>, id: int, dep: int) {
    exists k :: 0 <= k < |plans| && plans[k].id == id && dep in plans[k].blocksOn
  }

  ghost predicate Walk(plans: seq<PlanEntry>, walk: seq<int>) {
    forall k :: 0 <= k < |walk| - 1 ==> DependsOn(plans, walk[k], walk[k + 1])
  }

  /** Some plan waits, through one or more steps, for itself. */
  ghost predicate Cyclic(plans: seq<PlanEntry>) {
    exists walk :: |walk| >= 2 && Walk(plans, walk) && walk[0] == walk[|walk| - 1]
  }

  /** The first n entries have positive, distinct ids and titles. */
  ghost predicate EntriesSound(plans: seq<PlanEntry>, n: nat) {
    && n <= |plans|
    && (forall k :: 0 <= k < n ==> plans[k].id > 0 && plans[k].title != "")
    && (forall i, j :: 0 <= i < j < n ==> plans[i].id != plans[j].id)
  }

  ghost predicate ReferencesKnown(plans: seq<PlanEntry>, n: nat) {
    n <= |plans| && forall k, dep :: 0 <= k < n && dep in plans[k].blocksOn ==> dep in Ids(plans)
  }

  ghost predicate WellFormed(m: PlanManifest) {
    m.specPath != "" && m.plans != [] && EntriesSound(m.plans, |m.plans|) && ReferencesKnown(m.plans, |m.plans|)
  }

  /** The error names the first thing wrong, in the order the checks are made. */
  ghost predicate FirstProblem(m: PlanManifest, error: ManifestError) {
    var plans := m.plans;
    match error
    case SpecPathRequired => m.specPath == ""
    case PlansEmpty => m.specPath != "" && plans == []
    case IdNotPositive(i, id) =>
      m.specPath != "" && i < |plans| && EntriesSound(plans, i) && plans[i].id == id <= 0
    case TitleEmpty(i, id) =>
      m.specPath != "" && i < |plans| && EntriesSound(plans, i) && plans[i].id == id > 0 && plans[i].title == ""
    case DuplicateId(id) =>
      m.specPath != "" && exists i :: 0 <= i < |plans| && EntriesSound(plans, i) && plans[i].id == id > 0
                                   && plans[i].title != "" && id in Ids(plans[..i])
    case UnknownDependency(i, id, dep) =>
      && m.specPath != "" && i < |plans| && EntriesSound(plans, |plans|) && ReferencesKnown(plans, i)
      && plans[i].id == id && dep !in Ids(plans)
      && exists j :: 0 <= j < |plans[i].blocksOn| && plans[i].blocksOn[j] == dep
                  && forall e :: e in plans[i].blocksOn[..j] ==> e in Ids(plans)
    case GraphHasCycle => WellFormed(m) && Cyclic(plans)
  }

  // ---- Pigeonhole, and why a graph without a free plan has a cycle ----

  lemma {:induction false} DistinctFits(s: seq<int>, room: set<int>)
    requires forall k :: 0 <= k < |s| ==> s[k] in room
    requires forall i, j :: 0 <= i < j < |s| ==> s[i] != s[j]
    ensures |s| <= |room|
  {
    if s != [] {
      DistinctFits(s[1..], room - {s[0]});
    }
  }

  ghost predicate Blocked(plans: seq<PlanEntry>, stuck: set<int>, id: int) {
    exists dep :: dep in stuck && DependsOn(plans, id, dep)
  }

  /** Following dependencies inside a set where everybody has one. */
  lemma {:induction false} LongWalk(plans: seq<PlanEntry>, stuck: set<int>, start: int, steps: nat)
    returns (walk: seq<int>)
    requires start in stuck
    requires forall id {:trigger Blocked(plans, stuck, id)} :: id in stuck ==> Blocked(plans, stuck, id)
    ensures |walk| == steps + 1 && Walk(plans, walk) && walk[0] == start
    ensures forall k :: 0 <= k < |walk| ==> walk[k] in stuck
    decreases steps
  {
    hide DependsOn;
    if steps == 0 {
      walk := [start];
    } else {
      assert Blocked(plans, stuck, start);
      var dep :| dep in stuck && DependsOn(plans, start, dep);
      var rest := LongWalk(plans, stuck, dep, steps - 1);
      walk := [start] + rest;
    }
  }

  lemma StuckHasCycle(plans: seq<PlanEntry>, stuck: set<int>, start: int)
    requires start in stuck
    requires forall id {:trigger Blocked(plans, stuck, id)} :: id in stuck ==> Blocked(plans, stuck, id)
    ensures Cyclic(plans)
  {
    hide DependsOn, Blocked;
    var walk := LongWalk(plans, stuck, start, |stuck|);
    if forall i, j :: 0 <= i < j < |walk| ==> walk[i] != walk[j] {
      DistinctFits(walk, stuck);
      assert false;
    }
    var i, j :| 0 <= i < j < |walk| && walk[i] == walk[j];
    var loop := walk[i..j + 1];
    assert Walk(plans, loop) && loop[0] == loop[|loop| - 1];
  }

  // ---- Topological order ----

  ghost predicate Topological(plans: seq<PlanEntry>, order: seq<int>) {
    && (forall i, j :: 0 <= i < j < |order| ==> order[i] != order[j])
    && (forall k :: 0 <= k < |order| ==> order[k] in Ids(plans))
    && (forall k, dep :: 0 <= k < |order| && DependsOn(plans, order[k], dep) ==> dep in order[..k])
  }

  lemma {:induction false} WalkDescends(plans: seq<PlanEntry>, order: seq<int>, walk: seq<int>, at: nat)
    returns (last: nat)
    requires Topological(plans, order) && Walk(plans, walk) && walk != []
    requires at < |order| && order[at] == walk[0]
    ensures last < |order| && order[last] == walk[|walk| - 1] && last + |walk| - 1 <= at
  {
    if |walk| == 1 {
      last := at;
    } else {
      assert DependsOn(plans, walk[0], walk[1]);
      var next :| 0 <= next < at && order[next] == walk[1];
      last := WalkDescends(plans, order, walk[1..], next);
    }
  }

  lemma OrderedIsAcyclic(plans: seq<PlanEntry>, order: seq<int>)
    requires Topological(plans, order)
    requires forall id :: id in Ids(plans) ==> id in order
    ensures !Cyclic(plans)
  {
    if Cyclic(plans) {
      var walk :| |walk| >= 2 && Walk(plans, walk) && walk[0] == walk[|walk| - 1];
      assert DependsOn(plans, walk[0], walk[1]);
      assert walk[0] in Ids(plans);
      var at :| 0 <= at < |order| && order[at] == walk[0];
      var last := WalkDescends(plans, order, walk, at);
    }
  }

  // ---- Counting dependencies ----

  function BlocksOn(plans: seq<PlanEntry>, id: int): seq<int> {
    if plans == [] then [] else if plans[0].id == id then plans[0].blocksOn else BlocksOn(plans[1..], id)
  }

  /** How many entries of the list are still outside the done set. */
  function Pending(deps: seq<int>, done: set<int>): nat {
    if deps == [] then 0
    else Pending(deps[..|deps| - 1], done) + if deps[|deps| - 1] in done then 0 else 1
  }

  /** How often x is listed. */
  function Count(s: seq<int>, x: int): nat {
    if s == [] then 0 else Count(s[..|s| - 1], x) + if s[|s| - 1] == x then 1 else 0
  }

  lemma {:induction false} BlocksOnIs(plans: seq<PlanEntry>, k: nat)
    requires k < |plans| && forall i, j :: 0 <= i < j < |plans| ==> plans[i].id != plans[j].id
    ensures BlocksOn(plans, plans[k].id) == plans[k].blocksOn
  {
    if k > 0 {
      assert plans[1..][k - 1] == plans[k];
      BlocksOnIs(plans[1..], k - 1);
    }
  }

  lemma DependsOnIs(plans: seq<PlanEntry>, id: int, dep: int)
    requires forall i, j :: 0 <= i < j < |plans| ==> plans[i].id != plans[j].id
    requires id in Ids(plans)
    ensures DependsOn(plans, id, dep) <==> dep in BlocksOn(plans, id)
  {
    var k :| 0 <= k < |plans| && plans[k].id == id;
    BlocksOnIs(plans, k);
  }

  lemma {:induction false} PendingZero(deps: seq<int>, done: set<int>)
    ensures Pending(deps, done) == 0 <==> forall d :: d in deps ==> d in done
  {
    if deps != [] {
      var front := deps[..|deps| - 1];
      PendingZero(front, done);
      assert forall d :: d in deps <==> d in front || d == deps[|deps| - 1];
    }
  }

  lemma {:induction false} PendingDrop(deps: seq<int>, done: set<int>, x: int)
    requires x !in done
    ensures Pending(deps, done) == Pending(deps, done + {x}) + Count(deps, x)
  {
    if deps != [] { PendingDrop(deps[..|deps| - 1], done, x); }
  }

  lemma {:induction false} PendingAll(deps: seq<int>)
    ensures Pending(deps, {}) == |deps|
  {
    if deps != [] { PendingAll(deps[..|deps| - 1]); }
  }

  lemma CountMore(s: seq<int>, y: int, x: int)
    ensures Count(s + [y], x) == Count(s, x) + if y == x then 1 else 0
  {
    assert (s + [y])[..|s|] == s;
  }

  lemma {:induction false} CountTake(s: seq<int>, k: nat, x: int)
    requires k < |s|
    ensures Count(s[..k + 1], x) == Count(s[..k], x) + (if s[k] == x then 1 else 0) <= Count(s, x)
  {
    CountMore(s[..k], s[k], x);
    assert s[..k + 1] == s[..k] + [s[k]];
    var front := s[..|s| - 1];
    if k < |front| {
      assert front[..k] == s[..k] && front[..k + 1] == s[..k + 1];
      CountTake(front, k, x);
    } else {
      assert s[..k + 1] == s;
    }
  }

  lemma CountListed(s: seq<int>, x: int)
    requires x in s
    ensures Count(s, x) > 0
  {
    var k :| 0 <= k < |s| && s[k] == x;
    CountTake(s, k, x);
  }

  // ---- Validation ----

  /** Checks entries in manifest order; the ids seen so far are kept to find duplicates. */
  method CheckEntries(plans: seq<PlanEntry>) returns (seen: set<int>, problem: Outcome)
    ensures problem.Accepted? ==> EntriesSound(plans, |plans|) && seen == Ids(plans)
    ensures problem.Rejected? ==>
      FirstProblem(PlanManifest("spec", plans), problem.error) && !EntriesSound(plans, |plans|)
    ensures problem.Rejected? ==>
      problem.error.IdNotPositive? || problem.error.TitleEmpty? || problem.error.DuplicateId?
  {
    seen := {};
    var i := 0;
    while i < |plans|
      invariant 0 <= i <= |plans|
      invariant EntriesSound(plans, i)
      invariant seen == Ids(plans[..i])
    {
      var p := plans[i];
      IdsTake(plans, i);
      hide Ids;
      if p.id <= 0 {
        return seen, Rejected(IdNotPositive(i, p.id));
      }
      if p.title == "" {
        return seen, Rejected(TitleEmpty(i, p.id));
      }
      if p.id in seen {
        assert exists k :: 0 <= k < i && plans[k].id == p.id;
        return seen, Rejected(DuplicateId(p.id));
      }
      seen := seen + {p.id};
      i := i + 1;
    }
    assert plans[..i] == plans;
    problem := Accepted;
  }

  method CheckReferences(plans: seq<PlanEntry>, seen: set<int>) returns (problem: Outcome)
    requires EntriesSound(plans, |plans|) && seen == Ids(plans)
    ensures problem.Accepted? ==> ReferencesKnown(plans, |plans|)
    ensures problem.Rejected? ==>
      FirstProblem(PlanManifest("spec", plans), problem.error) && !ReferencesKnown(plans, |plans|)
    ensures problem.Rejected? ==> problem.error.UnknownDependency?
  {
    var i := 0;
    while i < |plans|
      invariant 0 <= i <= |plans|
      invariant ReferencesKnown(plans, i)
    {
      var deps := plans[i].blocksOn;
      var j := 0;
      while j < |deps|
        invariant 0 <= j <= |deps|
        invariant forall e :: e in deps[..j] ==> e in seen
      {
        if deps[j] !in seen {
          assert deps[j] in plans[i].blocksOn;
          return Rejected(UnknownDependency(i, plans[i].id, deps[j]));
        }
        assert deps[..j + 1] == deps[..j] + [deps[j]];
        j := j + 1;
      }
      assert deps[..j] == deps;
      i := i + 1;
    }
    problem := Accepted;
  }

  function Dependents(dependents: map<int, seq<int>>, id: int): seq<int> {
    if id in dependents then dependents[id] else []
  }

  /** Every plan's in-degree is the length of its dependency list, and the reverse lists mirror the forward ones. */
  ghost predicate Counted(plans: seq<PlanEntry>, inDegree: map<int, int>, dependents: map<int, seq<int>>) {
    && inDegree.Keys == Ids(plans)
    && (forall id :: id in Ids(plans) ==> inDegree[id] == |BlocksOn(plans, id)|)
    && (forall d, id :: id in Ids(plans) ==> Count(Dependents(dependents, d), id) == Count(BlocksOn(plans, id), d))
    && (forall d, id :: id in Dependents(dependents, d) ==> id in Ids(plans))
  }

  /** The mirror gained one entry for id under d per mention of d. */
  ghost predicate MirrorGrows(before: map<int, seq<int>>, after: map<int, seq<int>>, id: int, deps: seq<int>) {
    forall d, v :: Count(Dependents(after, d), v) ==
      Count(Dependents(before, d), v) + (if v == id then Count(deps, d) else 0)
  }

  lemma MirrorStep(before: map<int, seq<int>>, after: map<int, seq<int>>, id: int, deps: seq<int>, dep: int)
    requires MirrorGrows(before, after, id, deps)
    ensures MirrorGrows(before, after[dep := Dependents(after, dep) + [id]], id, deps + [dep])
  {
    var next := after[dep := Dependents(after, dep) + [id]];
    forall d, v
      ensures Count(Dependents(next, d), v) == Count(Dependents(before, d), v)
        + (if v == id then Count(deps + [dep], d) else 0)
    {
      assert Count(Dependents(after, d), v) == Count(Dependents(before, d), v)
        + (if v == id then Count(deps, d) else 0);
      CountMore(deps, dep, d);
      CountMore(Dependents(after, dep), id, v);
    }
  }

  /** One plan's dependencies: one more in-degree and one more mirror entry per mention. */
  method CountOne(p: PlanEntry, inDegree0: map<int, int>, dependents0: map<int, seq<int>>)
    returns (inDegree: map<int, int>, dependents: map<int, seq<int>>)
    requires p.id !in inDegree0
    ensures inDegree == inDegree0[p.id := |p.blocksOn|]
    ensures MirrorGrows(dependents0, dependents, p.id, p.blocksOn)
  {
    inDegree, dependents := inDegree0[p.id := 0], dependents0;
    var j := 0;
    assert p.blocksOn[..0] == [] && forall d :: Count([], d) == 0;
    while j < |p.blocksOn|
      invariant 0 <= j <= |p.blocksOn|
      invariant inDegree == inDegree0[p.id := j]
      invariant MirrorGrows(dependents0, dependents, p.id, p.blocksOn[..j])
    {
      var dep := p.blocksOn[j];
      MirrorStep(dependents0, dependents, p.id, p.blocksOn[..j], dep);
      assert p.blocksOn[..j + 1] == p.blocksOn[..j] + [dep];
      inDegree := inDegree[p.id := inDegree[p.id] + 1];
      dependents := dependents[dep := Dependents(dependents, dep) + [p.id]];
      hide MirrorGrows, Count, Dependents;
      j := j + 1;
    }
    assert p.blocksOn[..j] == p.blocksOn;
  }

  /** Counted, for the plans before n. */
  ghost predicate CountedFirst(plans: seq<PlanEntry>, n: nat, inDegree: map<int, int>, dependents: map<int, seq<int>>) {
    && n <= |plans|
    && (forall id :: id in inDegree <==> exists k :: 0 <= k < n && plans[k].id == id)
    && (forall k :: 0 <= k < n ==> inDegree[plans[k].id] == |plans[k].blocksOn|)
    && (forall d, k :: 0 <= k < n ==> Count(Dependents(dependents, d), plans[k].id) == Count(plans[k].blocksOn, d))
    && (forall d, id :: id !in inDegree ==> Count(Dependents(dependents, d), id) == 0)
  }

  lemma CountedStep(plans: seq<PlanEntry>, i: nat, inDegree: map<int, int>, before: map<int, seq<int>>,
                    after: map<int, seq<int>>)
    requires i < |plans| && EntriesSound(plans, |plans|)
    requires CountedFirst(plans, i, inDegree, before) && plans[i].id !in inDegree
    requires MirrorGrows(before, after, plans[i].id, plans[i].blocksOn)
    ensures CountedFirst(plans, i + 1, inDegree[plans[i].id := |plans[i].blocksOn|], after)
  {
    hide Count, Dependents;
  }

  method CountDegrees(plans: seq<PlanEntry>) returns (inDegree: map<int, int>, dependents: map<int, seq<int>>)
    requires EntriesSound(plans, |plans|)
    ensures Counted(plans, inDegree, dependents)
  {
    inDegree, dependents := map[], map[];
    var i := 0;
    while i < |plans|
      invariant 0 <= i <= |plans|
      invariant CountedFirst(plans, i, inDegree, dependents)
    {
      ghost var before, mirror := inDegree, dependents;
      inDegree, dependents := CountOne(plans[i], inDegree, dependents);
      CountedStep(plans, i, before, mirror, dependents);
      i := i + 1;
    }
    assert forall id :: id in inDegree <==> id in Ids(plans);
    forall k | 0 <= k < |plans|
      ensures BlocksOn(plans, plans[k].id) == plans[k].blocksOn
    {
      BlocksOnIs(plans, k);
    }
    forall d, id | id in Dependents(dependents, d)
      ensures id in Ids(plans)
    {
      CountListed(Dependents(dependents, d), id);
    }
  }

  /** The queue and the dequeued plans are exactly those whose count of open dependencies is zero. */
  ghost predicate Frontier(plans: seq<PlanEntry>, order: seq<int>, queue: seq<int>, inDegree: map<int, int>) {
    && inDegree.Keys == Ids(plans)
    && (forall id :: id in order + queue <==> id in Ids(plans) && inDegree[id] == 0)
    && (forall i, j :: 0 <= i < j < |order + queue| ==> (order + queue)[i] != (order + queue)[j])
  }

  ghost predicate DegreesOpen(plans: seq<PlanEntry>, done: set<int>, inDegree: map<int, int>) {
    inDegree.Keys == Ids(plans) && forall id :: id in Ids(plans) ==> inDegree[id] == Pending(BlocksOn(plans, id), done)
  }

  /** Lowering one positive in-degree, and queueing the plan when it reaches zero. */
  lemma LowerDegree(plans: seq<PlanEntry>, order: seq<int>, queue: seq<int>, inDegree: map<int, int>, id: int)
    requires Frontier(plans, order, queue, inDegree) && id in Ids(plans) && inDegree[id] > 0
    ensures Frontier(plans, order, if inDegree[id] == 1 then queue + [id] else queue, inDegree[id := inDegree[id] - 1])
  {
    hide Ids;
    assert id !in order + queue;
    assert order + (queue + [id]) == order + queue + [id];
  }

  /** In-degrees part of the way through a release: the first k mentions have been taken off. */
  ghost predicate PartReleased(plans: seq<PlanEntry>, waiting: seq<int>, k: nat, done: set<int>,
                               inDegree: map<int, int>) {
    && k <= |waiting| && inDegree.Keys == Ids(plans)
    && forall id :: id in inDegree ==>
         inDegree[id] + Count(waiting[..k], id) == Pending(BlocksOn(plans, id), done) + Count(waiting, id)
  }

  lemma ReleaseOne(plans: seq<PlanEntry>, waiting: seq<int>, k: nat, done: set<int>, inDegree: map<int, int>)
    requires PartReleased(plans, waiting, k, done, inDegree) && k < |waiting| && waiting[k] in inDegree
    ensures inDegree[waiting[k]] > 0
    ensures PartReleased(plans, waiting, k + 1, done, inDegree[waiting[k] := inDegree[waiting[k]] - 1])
  {
    hide Ids, Pending, BlocksOn, Count;
    forall id
      ensures Count(waiting[..k + 1], id) == Count(waiting[..k], id)
        + (if waiting[k] == id then 1 else 0) <= Count(waiting, id)
    {
      CountTake(waiting, k, id);
    }
    var dep := waiting[k];
    assert inDegree[dep] + Count(waiting[..k], dep) == Pending(BlocksOn(plans, dep), done) + Count(waiting, dep);
  }

  lemma NoneReleased(plans: seq<PlanEntry>, waiting: seq<int>, done: set<int>, inDegree: map<int, int>)
    requires inDegree.Keys == Ids(plans)
    requires forall id :: id in inDegree ==> inDegree[id] == Pending(BlocksOn(plans, id), done) + Count(waiting, id)
    ensures PartReleased(plans, waiting, 0, done, inDegree)
  {
    hide Pending, BlocksOn, Ids;
    assert waiting[..0] == [];
  }

  /** Dequeuing one plan: each plan waiting for it loses one open dependency per mention. */
  method Release(plans: seq<PlanEntry>, waiting: seq<int>, inDegree0: map<int, int>, queue0: seq<int>,
                 cur: int, ghost order: seq<int>, ghost done: set<int>)
    returns (inDegree: map<int, int>, queue: seq<int>)
    requires DegreesOpen(plans, done, inDegree0) && cur !in done
    requires Frontier(plans, order, queue0, inDegree0)
    requires forall id :: id in Ids(plans) ==> Count(waiting, id) == Count(BlocksOn(plans, id), cur)
    requires forall id :: id in waiting ==> id in Ids(plans)
    ensures DegreesOpen(plans, done + {cur}, inDegree)
    ensures Frontier(plans, order, queue, inDegree)
  {
    hide Ids, Frontier, Pending, BlocksOn, Count;
    inDegree, queue := inDegree0, queue0;
    forall id | id in inDegree
      ensures inDegree0[id] == Pending(BlocksOn(plans, id), done + {cur}) + Count(waiting, id)
    {
      PendingDrop(BlocksOn(plans, id), done, cur);
    }
    var k := 0;
    NoneReleased(plans, waiting, done + {cur}, inDegree);
    while k < |waiting|
      invariant 0 <= k <= |waiting|
      invariant PartReleased(plans, waiting, k, done + {cur}, inDegree)
      invariant Frontier(plans, order, queue, inDegree)
    {
      var dep := waiting[k];
      assert dep in inDegree;
      hide PartReleased;
      ReleaseOne(plans, waiting, k, done + {cur}, inDegree);
      LowerDegree(plans, order, queue, inDegree, dep);
      inDegree := inDegree[dep := inDegree[dep] - 1];
      if inDegree[dep] == 0 {
        queue := queue + [dep];
      }
      k := k + 1;
    }
    assert waiting[..k] == waiting;
  }

  /** Dequeues plans without open dependencies until none is left, whatever order the queue starts in.
      The loop counts them; order is what a reader of the proof can look at. */
  method Drain(plans: seq<PlanEntry>, inDegree0: map<int, int>, dependents: map<int, seq<int>>)
    returns (processed: nat, ghost order: seq<int>)
    requires EntriesSound(plans, |plans|) && Counted(plans, inDegree0, dependents)
    ensures processed == |order| && Topological(plans, order)
    ensures forall id :: id in Ids(plans) && id !in order ==> exists dep :: dep in BlocksOn(plans, id) && dep !in order
  {
    var inDegree := inDegree0;
    var queue := InitialQueue(plans, inDegree);
    order := [];
    processed := 0;
    ghost var done: set<int> := {};
    forall id { PendingAll(BlocksOn(plans, id)); }
    assert [] + queue == queue;
    while |queue| > 0
      invariant processed == |order|
      invariant Topological(plans, order)
      invariant forall id :: id in order <==> id in done
      invariant DegreesOpen(plans, done, inDegree)
      invariant Frontier(plans, order, queue, inDegree)
      decreases |Ids(plans)| - |order|
    {
      var cur := queue[0];
      assert order + queue == (order + [cur]) + queue[1..];
      Dequeue(plans, order, queue, done, inDegree);
      queue := queue[1..];
      processed := processed + 1;
      order := order + [cur];
      inDegree, queue := Release(plans, Dependents(dependents, cur), inDegree, queue, cur, order, done);
      done := done + {cur};
    }
    assert order + queue == order;
    forall id | id in Ids(plans) && id !in order
      ensures exists dep :: dep in BlocksOn(plans, id) && dep !in order
    {
      PendingZero(BlocksOn(plans, id), done);
    }
  }

  /** The plans of in-degree zero, in the arbitrary order a map is iterated. */
  method InitialQueue(plans: seq<PlanEntry>, inDegree: map<int, int>) returns (queue: seq<int>)
    requires inDegree.Keys == Ids(plans)
    ensures Frontier(plans, [], queue, inDegree)
  {
    queue := [];
    var left := inDegree.Keys;
    while left != {}
      invariant left <= inDegree.Keys
      invariant forall id :: id in queue <==> id in inDegree && id !in left && inDegree[id] == 0
      invariant forall i, j :: 0 <= i < j < |queue| ==> queue[i] != queue[j]
      decreases |left|
    {
      var id :| id in left;
      left := left - {id};
      if inDegree[id] == 0 {
        queue := queue + [id];
      }
    }
    assert [] + queue == queue;
  }

  lemma TopologicalMore(plans: seq<PlanEntry>, order: seq<int>, cur: int)
    requires EntriesSound(plans, |plans|) && Topological(plans, order)
    requires cur in Ids(plans) && cur !in order && forall dep :: dep in BlocksOn(plans, cur) ==> dep in order
    ensures Topological(plans, order + [cur])
  {
    hide Ids, BlocksOn;
    var longer := order + [cur];
    forall k, dep | 0 <= k < |longer| && DependsOn(plans, longer[k], dep)
      ensures dep in longer[..k]
    {
      if k < |order| {
        assert longer[..k] == order[..k];
      } else {
        DependsOnIs(plans, cur, dep);
        assert longer[..k] == order;
      }
    }
  }

  /** A dequeued plan had all its dependencies dequeued before it. */
  lemma Dequeue(plans: seq<PlanEntry>, order: seq<int>, queue: seq<int>, done: set<int>, inDegree: map<int, int>)
    requires EntriesSound(plans, |plans|) && queue != []
    requires Topological(plans, order) && (forall id :: id in order <==> id in done)
    requires DegreesOpen(plans, done, inDegree) && Frontier(plans, order, queue, inDegree)
    ensures queue[0] !in done && Topological(plans, order + [queue[0]])
    ensures |order| + 1 <= |Ids(plans)|
  {
    hide Ids, BlocksOn, DependsOn, Pending;
    var cur := queue[0];
    var all := order + queue;
    assert all[|order|] == cur;
    forall k | 0 <= k < |order|
      ensures order[k] != cur
    {
      assert all[k] == order[k] && all[k] != all[|order|];
    }
    assert cur in Ids(plans) && inDegree[cur] == 0;
    PendingZero(BlocksOn(plans, cur), done);
    TopologicalMore(plans, order, cur);
    DistinctFits(order + [cur], Ids(plans));
  }

  /** Accepts exactly the well-formed manifests whose dependencies form no cycle, and otherwise
      names the first problem. */
  method Validate(m: PlanManifest) returns (outcome: Outcome)
    ensures outcome.Accepted? <==> WellFormed(m) && !Cyclic(m.plans)
    ensures outcome.Rejected? ==> FirstProblem(m, outcome.error)
    ensures outcome.Accepted? <==> Acceptable(m)
  {
    hide Acceptable;
    AcceptedIs(m);
    if m.specPath == "" {
      return Rejected(SpecPathRequired);
    }
    if |m.plans| == 0 {
      return Rejected(PlansEmpty);
    }
    var seen, entries := CheckEntries(m.plans);
    if entries.Rejected? {
      return entries;
    }
    var references := CheckReferences(m.plans, seen);
    if references.Rejected? {
      return references;
    }
    var inDegree, dependents := CountDegrees(m.plans);
    var processed;
    ghost var order;
    processed, order := Drain(m.plans, inDegree, dependents);
    DrainDecides(m.plans, order);
    if processed != |m.plans| {
      return Rejected(GraphHasCycle);
    }
    outcome := Accepted;
  }

  lemma AllPlaced(plans: seq<PlanEntry>, order: seq<int>)
    requires Topological(plans, order) && forall id :: id in Ids(plans) ==> id in order
    ensures |order| == |Ids(plans)| && !Cyclic(plans)
  {
    OrderedIsAcyclic(plans, order);
    DistinctFits(order, Ids(plans));
    OrderFits(order, Ids(plans));
  }

  lemma SomeStuck(plans: seq<PlanEntry>, order: seq<int>, start: int)
    requires EntriesSound(plans, |plans|) && ReferencesKnown(plans, |plans|) && Topological(plans, order)
    requires start in Ids(plans) && start !in order
    requires forall id :: id in Ids(plans) && id !in order ==> exists dep :: dep in BlocksOn(plans, id) && dep !in order
    ensures |order| < |Ids(plans)| && Cyclic(plans)
  {
    var stuck := set id | id in Ids(plans) && id !in order;
    forall id {:trigger Blocked(plans, stuck, id)} | id in stuck
      ensures Blocked(plans, stuck, id)
    {
      var dep :| dep in BlocksOn(plans, id) && dep !in order;
      DependsOnIs(plans, id, dep);
      var k :| 0 <= k < |plans| && plans[k].id == id && dep in plans[k].blocksOn;
      assert dep in stuck;
    }
    StuckHasCycle(plans, stuck, start);
    DistinctFits(order, Ids(plans) - {start});
  }

  /** All plans drained means no cycle; any left over means there is one. */
  lemma DrainDecides(plans: seq<PlanEntry>, order: seq<int>)
    requires EntriesSound(plans, |plans|) && ReferencesKnown(plans, |plans|) && Topological(plans, order)
    requires forall id :: id in Ids(plans) && id !in order ==> exists dep :: dep in BlocksOn(plans, id) && dep !in order
    ensures |order| == |plans| <==> !Cyclic(plans)
  {
    IdCount(plans);
    if start :| start in Ids(plans) && start !in order {
      SomeStuck(plans, order, start);
    } else {
      AllPlaced(plans, order);
    }
  }

  lemma IdCount(plans: seq<PlanEntry>)
    requires forall i, j :: 0 <= i < j < |plans| ==> plans[i].id != plans[j].id
    ensures |Ids(plans)| == |plans|
  {
    var ids := seq(|plans|, k requires 0 <= k < |plans| => plans[k].id);
    assert forall k :: 0 <= k < |plans| ==> ids[k] == plans[k].id;
    DistinctFits(ids, Ids(plans));
    forall id | id in Ids(plans)
      ensures id in ids
    {
      var k :| 0 <= k < |plans| && plans[k].id == id;
      assert ids[k] == id;
    }
    OrderFits(ids, Ids(plans));
  }

  lemma {:induction false} OrderFits(order: seq<int>, placed: set<int>)
    requires forall i, j :: 0 <= i < j < |order| ==> order[i] != order[j]
    requires forall id :: id in placed ==> id in order
    ensures |placed| <= |order|
  {
    if order == [] {
      assert forall id :: id !in placed;
    } else {
      OrderFits(order[1..], placed - {order[0]});
    }
  }

  // ---- Scheduling ----

  const DEFAULT_MAX_PARALLEL_PLANS := 2

  /** The policy's cap when it sets a positive one; no policy reads as 0. */
  function MaxParallelPlans(policyCap: int): (cap: int)
    ensures cap > 0
  {
    if policyCap > 0 then policyCap else DEFAULT_MAX_PARALLEL_PLANS
  }

  method AllCompleted(deps: seq<int>, completed: set<int>) returns (all: bool)
    ensures all <==> forall d :: d in deps ==> d in completed
  {
    for k := 0 to |deps|
      invariant forall d :: d in deps[..k] ==> d in completed
    {
      var d := deps[k];
      if d !in completed {
        assert d in deps;
        return false;
      }
      assert deps[..k + 1] == deps[..k] + [deps[k]];
    }
    assert deps[..|deps|] == deps;
    return true;
  }

  predicate Eligible(p: PlanEntry, completed: set<int>, active: set<int>) {
    p.id !in completed && p.id !in active && forall d :: d in p.blocksOn ==> d in completed
  }

  function EligiblePlans(plans: seq<PlanEntry>, completed: set<int>, active: set<int>): seq<PlanEntry> {
    if plans == [] then []
    else
      (if Eligible(plans[0], completed, active) then [plans[0]] else [])
      + EligiblePlans(plans[1..], completed, active)
  }

  /** The first eligible plans in manifest order, as many as there are free slots. */
  function Ready(plans: seq<PlanEntry>, policyCap: int, completed: set<int>, active: set<int>): seq<PlanEntry> {
    var slots := MaxParallelPlans(policyCap) - |active|;
    var eligible := EligiblePlans(plans, completed, active);
    if slots <= 0 then [] else if |eligible| <= slots then eligible else eligible[..slots]
  }

  method ReadyPlans(plans: seq<PlanEntry>, policyCap: int, completed: set<int>, active: set<int>)
    returns (ready: seq<PlanEntry>)
    ensures ready == Ready(plans, policyCap, completed, active)
  {
    var slots := MaxParallelPlans(policyCap) - |active|;
    if slots <= 0 {
      return [];
    }
    ready := [];
    var k := 0;
    ghost var eligible := EligiblePlans(plans, completed, active);
    assert plans[0..] == plans;
    while k < |plans|
      invariant 0 <= k <= |plans| && |ready| <= slots
      invariant ready + EligiblePlans(plans[k..], completed, active) == eligible
    {
      if |ready| >= slots {
        assert eligible[..slots] == ready;
        return;
      }
      var p := plans[k];
      assert plans[k..][1..] == plans[k + 1..];
      var clear := AllCompleted(p.blocksOn, completed);
      if p.id !in completed && p.id !in active && clear {
        assert ready + ([p] + EligiblePlans(plans[k + 1..], completed, active))
            == ready + [p] + EligiblePlans(plans[k + 1..], completed, active);
        ready := ready + [p];
      }
      k := k + 1;
    }
    assert plans[k..] == [] && ready == eligible;
  }

  lemma {:induction false} EligibleListed(plans: seq<PlanEntry>, completed: set<int>, active: set<int>, p: PlanEntry)
    ensures p in EligiblePlans(plans, completed, active) <==> p in plans && Eligible(p, completed, active)
  {
    if plans != [] {
      EligibleListed(plans[1..], completed, active, p);
      assert plans == [plans[0]] + plans[1..];
    }
  }

  /** Everything returned may start, and the cap holds after it has. */
  lemma ReadyIsSafe(plans: seq<PlanEntry>, policyCap: int, completed: set<int>, active: set<int>)
    ensures var ready := Ready(plans, policyCap, completed, active);
      && (forall p :: p in ready ==> p in plans && Eligible(p, completed, active))
      && (ready != [] ==> |active| + |ready| <= MaxParallelPlans(policyCap))
  {
    var ready := Ready(plans, policyCap, completed, active);
    forall p | p in ready
      ensures p in plans && Eligible(p, completed, active)
    {
      assert p in EligiblePlans(plans, completed, active);
      EligibleListed(plans, completed, active, p);
    }
  }

  /** Positions of plans neither completed nor active that wait for completed plans only. */
  ghost function Free(plans: seq<PlanEntry>, completed: set<int>, active: set<int>): set<int> {
    set n | 0 <= n < |plans| && plans[n].id !in completed && plans[n].id !in active
         && forall d :: d in plans[n].blocksOn ==> d in completed
  }

  /** The plans at these positions are the first free ones in manifest order, as many as the slots left by the active
      ones can take. */
  ghost predicate FirstFree(ready: seq<PlanEntry>, at: seq<int>, plans: seq<PlanEntry>, policyCap: int,
                            completed: set<int>, active: set<int>) {
    var free := Free(plans, completed, active);
    var slots := (if policyCap > 0 then policyCap else 2) - |active|;
    && |at| == |ready|
    && (forall i, j :: 0 <= i < j < |at| ==> at[i] < at[j])
    && (forall k :: 0 <= k < |at| ==> at[k] in free && ready[k] == plans[at[k]])
    && (forall k, n :: 0 <= k < |at| && n in free && n < at[k] ==> n in at)
    && |ready| == if slots <= 0 then 0 else if |free| <= slots then |free| else slots
  }

  /** An increasing list of the positions with this property from here on. */
  ghost predicate Positions(at: seq<int>, from: int, free: set<int>) {
    && (forall i, j :: 0 <= i < j < |at| ==> at[i] < at[j])
    && (forall n :: n in at <==> from <= n && n in free)
  }

  lemma PositionsMore(at: seq<int>, from: int, free: set<int>)
    requires Positions(at, from + 1, free)
    ensures Positions(if from in free then [from] + at else at, from, free)
  {
    assert forall k :: 0 <= k < |at| ==> at[k] in at;
  }

  lemma {:induction false} EligibleFrom(plans: seq<PlanEntry>, from: nat, completed: set<int>, active: set<int>)
    returns (at: seq<int>)
    requires from <= |plans|
    ensures Positions(at, from, Free(plans, completed, active))
    ensures var eligible := EligiblePlans(plans[from..], completed, active);
      |at| == |eligible| && forall k :: 0 <= k < |at| ==> 0 <= at[k] < |plans| && eligible[k] == plans[at[k]]
    decreases |plans| - from
  {
    hide Positions;
    at := [];
    if from < |plans| {
      assert plans[from..][1..] == plans[from + 1..];
      at := EligibleFrom(plans, from + 1, completed, active);
      PositionsMore(at, from, Free(plans, completed, active));
      if from in Free(plans, completed, active) {
        at := [from] + at;
      }
    } else {
      NoPositions(plans, completed, active);
    }
  }

  lemma NoPositions(plans: seq<PlanEntry>, completed: set<int>, active: set<int>)
    ensures Positions([], |plans|, Free(plans, completed, active))
  {
  }

  lemma FreeListed(plans: seq<PlanEntry>, completed: set<int>, active: set<int>) returns (at: seq<int>)
    ensures var eligible, free := EligiblePlans(plans, completed, active), Free(plans, completed, active);
      && |at| == |eligible| == |free|
      && (forall i, j :: 0 <= i < j < |at| ==> at[i] < at[j])
      && (forall k :: 0 <= k < |at| ==> 0 <= at[k] < |plans| && eligible[k] == plans[at[k]])
    ensures forall n :: n in at <==> n in Free(plans, completed, active)
  {
    hide EligiblePlans;
    assert plans[0..] == plans;
    at := EligibleFrom(plans, 0, completed, active);
    assert forall n :: n in at <==> n in Free(plans, completed, active);
    DistinctFits(at, Free(plans, completed, active));
    OrderFits(at, Free(plans, completed, active));
  }

  /** What is offered: in order, nobody passed over, and no slot left empty while a plan could take it. */
  lemma ReadyIsFirstFree(plans: seq<PlanEntry>, policyCap: int, completed: set<int>, active: set<int>)
    returns (at: seq<int>)
    ensures FirstFree(Ready(plans, policyCap, completed, active), at, plans, policyCap, completed, active)
  {
    hide EligiblePlans, Free;
    var all := FreeListed(plans, completed, active);
    var n := |Ready(plans, policyCap, completed, active)|;
    at := all[..n];
    Beginning(all, n, Free(plans, completed, active));
  }

  /** The beginning of an increasing list leaves out nothing before its end. */
  lemma Beginning(all: seq<int>, n: nat, free: set<int>)
    requires n <= |all| && forall i, j :: 0 <= i < j < |all| ==> all[i] < all[j]
    requires forall x :: x in all <==> x in free
    ensures forall k :: 0 <= k < n ==> all[..n][k] in free
    ensures forall k, x :: 0 <= k < n && x in free && x < all[..n][k] ==> x in all[..n]
  {
    forall k | 0 <= k < n
      ensures all[..n][k] in free
    {
      assert all[k] in all;
    }
    forall k, x | 0 <= k < n && x in free && x < all[..n][k]
      ensures x in all[..n]
    {
      var m :| 0 <= m < |all| && all[m] == x;
      assert all[..n][m] == x;
    }
  }

  /** The first of them, when a slot is left for it. */
  ghost predicate Foremost(plans: seq<PlanEntry>, n: int, policyCap: int, completed: set<int>, active: set<int>) {
    && |active| < (if policyCap > 0 then policyCap else 2)
    && 0 <= n < |plans| && plans[n].id !in completed && plans[n].id !in active
    && (forall d :: d in plans[n].blocksOn ==> d in completed)
    && forall k :: 0 <= k < n ==>
         plans[k].id in completed || plans[k].id in active || exists d :: d in plans[k].blocksOn && d !in completed
  }

  lemma FirstIsForemost(plans: seq<PlanEntry>, policyCap: int, completed: set<int>, active: set<int>)
    ensures var ready := Ready(plans, policyCap, completed, active);
      && (ready == [] <==> forall n :: !Foremost(plans, n, policyCap, completed, active))
      && (ready != [] ==> exists n :: Foremost(plans, n, policyCap, completed, active) && plans[n] == ready[0])
  {
    hide Ready;
    var ready := Ready(plans, policyCap, completed, active);
    var at := ReadyIsFirstFree(plans, policyCap, completed, active);
    var free := Free(plans, completed, active);
    forall n | Foremost(plans, n, policyCap, completed, active)
      ensures ready != []
    {
      assert n in free;
    }
    if ready != [] {
      forall k | 0 <= k < at[0]
        ensures plans[k].id in completed || plans[k].id in active ||
          exists d :: d in plans[k].blocksOn && d !in completed
      {
        assert at[0] in free && k !in free;
      }
      assert at[0] in free;
      assert Foremost(plans, at[0], policyCap, completed, active);
    }
  }

  lemma OneForemost(plans: seq<PlanEntry>, policyCap: int, completed: set<int>, active: set<int>)
    ensures forall i, j ::
      Foremost(plans, i, policyCap, completed, active) && Foremost(plans, j, policyCap, completed, active) ==> i == j
  {
  }

  lemma ForemostIsNew(plans: seq<PlanEntry>, policyCap: int, completed: set<int>, active: set<int>)
    ensures var ready := Ready(plans, policyCap, completed, active);
      ready != [] ==> ready[0].id !in active
  {
    hide Ready;
    FirstIsForemost(plans, policyCap, completed, active);
  }

  /** Without a cycle, some unfinished plan waits for finished plans only. */
  lemma FreePlan(m: PlanManifest, completed: set<int>) returns (p: PlanEntry)
    requires WellFormed(m) && !Cyclic(m.plans) && !(Ids(m.plans) <= completed)
    ensures p in m.plans && p.id !in completed && forall d :: d in p.blocksOn ==> d in completed
  {
    var plans := m.plans;
    var open := Ids(plans) - completed;
    assert exists id :: id in Ids(plans) && id !in completed;
    var start :| start in Ids(plans) && start !in completed;
    assert start in open;
    if forall id {:trigger Blocked(plans, open, id)} :: id in open ==> Blocked(plans, open, id) {
      StuckHasCycle(plans, open, start);
      assert false;
    }
    var free :| free in open && !Blocked(plans, open, free);
    var k :| 0 <= k < |plans| && plans[k].id == free;
    p := plans[k];
    forall d | d in p.blocksOn
      ensures d in completed
    {
      assert DependsOn(plans, free, d);
      assert d in Ids(plans);
    }
  }

  /** Plans can be numbered so that each waits for smaller numbers only. */
  ghost predicate Ranked(plans: seq<PlanEntry>, rank: map<int, nat>) {
    forall k, dep :: 0 <= k < |plans| && dep in plans[k].blocksOn ==>
      plans[k].id in rank && dep in rank && rank[dep] < rank[plans[k].id]
  }

  lemma {:induction false} RankFalls(plans: seq<PlanEntry>, rank: map<int, nat>, walk: seq<int>, n: nat)
    requires Ranked(plans, rank) && Walk(plans, walk) && 0 < n < |walk|
    ensures walk[0] in rank && walk[n] in rank && rank[walk[n]] < rank[walk[0]]
  {
    assert DependsOn(plans, walk[n - 1], walk[n - 1 + 1]);
    if n > 1 {
      RankFalls(plans, rank, walk, n - 1);
    }
  }

  /** The plans numbered so far wait for smaller numbers only. */
  ghost predicate RankedSoFar(plans: seq<PlanEntry>, rank: map<int, nat>) {
    && rank.Keys <= Ids(plans) && (forall id :: id in rank ==> rank[id] < |rank|)
    && forall k, dep :: 0 <= k < |plans| && plans[k].id in rank && dep in plans[k].blocksOn ==>
         dep in rank && rank[dep] < rank[plans[k].id]
  }

  lemma RankOne(plans: seq<PlanEntry>, rank: map<int, nat>, p: PlanEntry)
    requires RankedSoFar(plans, rank) && EntriesSound(plans, |plans|)
    requires p in plans && p.id !in rank && forall d :: d in p.blocksOn ==> d in rank
    ensures RankedSoFar(plans, rank[p.id := |rank|]) && p.id in Ids(plans) - rank.Keys
  {
    hide Ids;
    assert p.id in Ids(plans) by { IdListed(plans, p); }
    var more := rank[p.id := |rank|];
    assert more.Keys == rank.Keys + {p.id} && |more| == |rank| + 1;
    var at :| 0 <= at < |plans| && plans[at] == p;
    forall k | 0 <= k < |plans|
      ensures plans[k].id == p.id ==> plans[k] == p
    {
    }
  }

  lemma IdListed(plans: seq<PlanEntry>, p: PlanEntry)
    requires p in plans
    ensures p.id in Ids(plans)
  {
  }

  /** Finishing free plans one after another numbers them all. */
  lemma RankAll(m: PlanManifest) returns (rank: map<int, nat>)
    requires WellFormed(m) && !Cyclic(m.plans)
    ensures Ranked(m.plans, rank)
  {
    hide Cyclic, RankedSoFar, Ids;
    rank := map[];
    NothingRanked(m.plans);
    while !(Ids(m.plans) <= rank.Keys)
      invariant RankedSoFar(m.plans, rank)
      decreases Ids(m.plans) - rank.Keys
    {
      var p := FreePlan(m, rank.Keys);
      RankOne(m.plans, rank, p);
      rank := rank[p.id := |rank|];
    }
    AllRanked(m.plans, rank);
  }

  lemma NothingRanked(plans: seq<PlanEntry>)
    ensures RankedSoFar(plans, map[])
  {
  }

  lemma AllRanked(plans: seq<PlanEntry>, rank: map<int, nat>)
    requires RankedSoFar(plans, rank) && Ids(plans) <= rank.Keys
    ensures Ranked(plans, rank)
  {
    forall k | 0 <= k < |plans|
      ensures plans[k].id in rank
    {
      IdListed(plans, plans[k]);
    }
  }

  lemma AcyclicIffRanked(m: PlanManifest)
    requires WellFormed(m)
    ensures !Cyclic(m.plans) <==> exists rank :: Ranked(m.plans, rank)
  {
    hide WellFormed;
    if !Cyclic(m.plans) {
      var rank := RankAll(m);
    } else {
      var walk :| |walk| >= 2 && Walk(m.plans, walk) && walk[0] == walk[|walk| - 1];
      forall rank
        ensures !Ranked(m.plans, rank)
      {
        if Ranked(m.plans, rank) {
          RankFalls(m.plans, rank, walk, |walk| - 1);
        }
      }
    }
  }

  ghost predicate Named(plans: seq<PlanEntry>, id: int) {
    exists j :: 0 <= j < |plans| && plans[j].id == id
  }

  /** What is accepted, field by field: sound entries, known references, and dependencies that can be numbered. */
  ghost predicate Acceptable(m: PlanManifest) {
    && m.specPath != "" && m.plans != []
    && (forall k :: 0 <= k < |m.plans| ==> m.plans[k].id > 0 && m.plans[k].title != "")
    && (forall i, j :: 0 <= i < j < |m.plans| ==> m.plans[i].id != m.plans[j].id)
    && (forall k, dep :: 0 <= k < |m.plans| && dep in m.plans[k].blocksOn ==> Named(m.plans, dep))
    && exists rank :: Ranked(m.plans, rank)
  }

  lemma NamedAreIds(plans: seq<PlanEntry>)
    ensures forall id :: id in Ids(plans) <==> Named(plans, id)
  {
  }

  lemma AcceptedIs(m: PlanManifest)
    ensures WellFormed(m) && !Cyclic(m.plans) <==> Acceptable(m)
  {
    hide Cyclic, Ranked, Named, Ids;
    assert forall id :: id in Ids(m.plans) <==> Named(m.plans, id) by { NamedAreIds(m.plans); }
    if WellFormed(m) {
      AcyclicIffRanked(m);
    }
  }

  /** No deadlock: with a free slot and work left, either a plan is ready or an unfinished plan is running. */
  lemma Progress(m: PlanManifest, policyCap: int, completed: set<int>, active: set<int>)
    requires WellFormed(m) && !Cyclic(m.plans)
    requires !(Ids(m.plans) <= completed) && |active| < MaxParallelPlans(policyCap)
    ensures Ready(m.plans, policyCap, completed, active) != []
         || exists p :: p in m.plans && p.id in active && p.id !in completed
  {
    var p := FreePlan(m, completed);
    EligibleListed(m.plans, completed, active, p);
  }
}
