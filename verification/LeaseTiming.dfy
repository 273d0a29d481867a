/** Evictions on the clock, over every interleaved run: when a worker gets a second chance, and when an eviction takes
    a worker that was heard from. */
module LeaseTiming {
  import opened Options
  import opened Store
  import opened Dispatches
  import opened Workers
  import opened Lease
  import Watchdog

  predicate InState(t: Tables, h: Id, state: WorkerState) {
    h in t.workers && t.workers[h].state == state
  }

  lemma TraceStep(ws: seq<World>, steps: seq<Step>, k: nat)
    requires Trace(ws, steps) && k + 1 < |ws|
    ensures |ws| == |steps| + 1 && Moves(ws[k], steps[k], ws[k + 1])
  {
  }

  lemma {:induction false} ClockForward(ws: seq<World>, steps: seq<Step>, i: nat, k: nat)
    requires Trace(ws, steps) && i <= k < |ws|
    ensures ws[i].now <= ws[k].now
  {
    hide Trace;
    if i < k {
      ClockForward(ws, steps, i, k - 1);
      TraceStep(ws, steps, k - 1);
      ClockStep(ws[k - 1], steps[k - 1], ws[k]);
    }
  }

  lemma ClockStep(w: World, step: Step, next: World)
    requires Moves(w, step, next)
    ensures w.now <= next.now
  {
    hide Apply, ActorsAfter;
  }

  // ---- The first tick ----

  /** No live worker has been silent since before the bound. */
  ghost predicate LiveSince(t: Tables, bound: int) {
    forall h :: InState(t, h, Live) ==> t.workers[h].heartbeat >= bound
  }

  lemma LiveSinceKept(s: State, tx: Tx, now: int, bound: int)
    requires Legal(s, tx) && bound <= now && LiveSince(s.tables, bound)
    ensures LiveSince(Apply(s, tx, now).tables, bound)
  {
    hide Appended, Oldest;
    var after := Apply(s, tx, now);
    forall h | InState(after.tables, h, Live)
      ensures after.tables.workers[h].heartbeat >= bound
    {
      assert InState(s.tables, h, Live) ==> s.tables.workers[h].heartbeat >= bound;
    }
  }

  /** Either every live worker is recent, or the watchdog still has to mark the others. */
  ghost predicate Settling(w: World, dog: nat, bound: int) {
    LiveSince(w.s.tables, bound)
      || (dog in w.actors && w.actors[dog].Ageing? && w.actors[dog].staleCutoff == bound && w.actors[dog].found)
  }

  lemma SettlingKept(w: World, step: Step, next: World, dog: nat, bound: int)
    requires Moves(w, step, next) && bound <= w.now && Settling(w, dog, bound)
    ensures Settling(next, dog, bound)
  {
    hide Apply, Legal;
    TxIsLegal(w, step);
    if LiveSince(w.s.tables, bound) {
      LiveSinceKept(w.s, TxOf(w, step), w.now, bound);
    } else if step == AgeNow(dog) {
      MarkedAreRecent(w.s, bound, w.now);
    }
  }

  lemma MarkedAreRecent(s: State, cutoff: int, now: int)
    ensures LiveSince(Apply(s, TxAge(cutoff), now).tables, cutoff)
  {
  }

  lemma SettlingStarts(w: World, step: Step, next: World)
    requires Moves(w, step, next) && step.StartTick?
    ensures Settling(next, step.a, w.now - step.staleAfter)
  {
    var bound := w.now - step.staleAfter;
    if SilentLive(w.s.tables, bound) == {} {
      forall h | InState(w.s.tables, h, Live)
        ensures w.s.tables.workers[h].heartbeat >= bound
      {
        assert h !in SilentLive(w.s.tables, bound);
      }
    }
  }

  lemma {:induction false} SettlingHolds(ws: seq<World>, steps: seq<Step>, i: nat, k: nat)
    requires Trace(ws, steps) && i < k < |ws| && steps[i].StartTick? && steps[i].staleAfter >= 0
    ensures Settling(ws[k], steps[i].a, ws[i].now - steps[i].staleAfter)
  {
    hide Trace, Moves, Settling;
    TraceStep(ws, steps, k - 1);
    if k == i + 1 {
      SettlingStarts(ws[i], steps[i], ws[k]);
    } else {
      SettlingHolds(ws, steps, i, k - 1);
      ClockForward(ws, steps, i, k - 1);
      SettlingKept(ws[k - 1], steps[k - 1], ws[k], steps[i].a, ws[i].now - steps[i].staleAfter);
    }
  }

  /** Once a tick is over, every live worker was heard from since its stale cutoff. */
  lemma TickLeavesTheRecent(ws: seq<World>, steps: seq<Step>, i: nat, e: nat)
    requires Trace(ws, steps) && i < e < |steps| && steps[i].StartTick? && steps[i].staleAfter >= 0
    requires steps[e] == EndTick(steps[i].a)
    ensures LiveSince(ws[e + 1].s.tables, ws[i].now - steps[i].staleAfter)
  {
    SettlingHolds(ws, steps, i, e + 1);
    TraceStep(ws, steps, e);
  }

  // ---- The next tick ----

  /** The worker is recent, is out only if it left by itself, and is on no watchdog's way to eviction. */
  ghost predicate Safe(w: World, dog: nat, h: Id, bound: int) {
    && h in w.s.tables.workers && w.s.tables.workers[h].heartbeat >= bound
    && (w.s.tables.workers[h].state == Evicted ==> h in w.left)
    && (forall a :: a in w.actors && !w.actors[a].Expiring? ==> a == dog)
    && (dog in w.actors ==> Harmless(w.actors[dog], h, bound))
  }

  predicate Harmless(x: Actor, h: Id, bound: int) {
    match x
    case Ageing(_, evictCutoff, _) => evictCutoff <= bound
    case Selecting(cutoff) => cutoff <= bound
    case Evicting(_, todo, _) => h !in todo
    case _ => true
  }

  lemma WorkerKept(s: State, tx: Tx, now: int, h: Id, bound: int)
    requires Legal(s, tx) && bound <= now && h in s.tables.workers && s.tables.workers[h].heartbeat >= bound
    ensures var t := Apply(s, tx, now).tables;
      && h in t.workers && t.workers[h].heartbeat >= bound
      && (t.workers[h].state == Evicted ==> || s.tables.workers[h].state == Evicted || tx == TxEvict(h)
                                            || (tx == TxLeave(h) && LeaveRow(s.tables, h).Some?))
  {
    hide Appended, Oldest;
  }

  lemma SafeKept(w: World, step: Step, next: World, dog: nat, h: Id, bound: int)
    requires Moves(w, step, next) && bound <= w.now && Safe(w, dog, h, bound)
    requires step.StartTick? ==> step.a == dog && w.now - step.evictAfter <= bound
    ensures Safe(next, dog, h, bound)
  {
    TxIsLegal(w, step);
    hide Apply, Legal;
    WorkerKept(w.s, TxOf(w, step), w.now, h, bound);
    if step.StartEvict? && step.a == dog {
      assert h !in SilentStale(w.s.tables, w.actors[dog].cutoff);
    }
  }

  ghost predicate TicksInTime(ws: seq<World>, steps: seq<Step>, i: nat, e: nat, n: nat)
    requires |ws| == |steps| + 1 && i < |steps| && steps[i].StartTick? && n < |ws|
  {
    forall m :: e < m < n && steps[m].StartTick? ==>
      ws[m].now - ws[i].now <= steps[m].evictAfter - steps[i].staleAfter
  }

  lemma {:induction false} SafeHolds(ws: seq<World>, steps: seq<Step>, dog: nat, i: nat, e: nat, n: nat, h: Id)
    requires Trace(ws, steps) && SoleWatchdog(steps, dog) && i < e < n < |ws|
    requires steps[i].StartTick? && steps[i].staleAfter >= 0 && steps[e] == EndTick(dog)
    requires InState(ws[e + 1].s.tables, h, Live) && TicksInTime(ws, steps, i, e, n)
    ensures Safe(ws[n], dog, h, ws[i].now - steps[i].staleAfter)
  {
    hide Trace, Moves, Safe, InState;
    TraceStep(ws, steps, n - 1);
    if n == e + 1 {
      TickLeavesTheRecent(ws, steps, i, e);
      AlwaysDog(ws, steps, n, dog);
      SafeStarts(ws[e], ws[n], dog, h, ws[i].now - steps[i].staleAfter);
    } else {
      SafeHolds(ws, steps, dog, i, e, n - 1, h);
      ClockForward(ws, steps, i, n - 1);
      SafeKept(ws[n - 1], steps[n - 1], ws[n], dog, h, ws[i].now - steps[i].staleAfter);
    }
  }

  lemma SafeStarts(w: World, next: World, dog: nat, h: Id, bound: int)
    requires Moves(w, EndTick(dog), next) && DogRight(next, dog)
    requires LiveSince(next.s.tables, bound) && InState(next.s.tables, h, Live)
    ensures Safe(next, dog, h, bound)
  {
    hide Apply;
  }

  /** With one watchdog, and everybody else stepping anywhere inside and between its ticks: a worker live after a tick
      is not evicted by any later tick that starts soon enough after it; it is out only if it left by itself. */
  lemma SparedInRuns(ws: seq<World>, steps: seq<Step>, dog: nat, i: nat, e: nat, n: nat, h: Id)
    requires Trace(ws, steps) && SoleWatchdog(steps, dog) && i < e < n < |ws|
    requires steps[i].StartTick? && steps[i].staleAfter >= 0 && steps[e] == EndTick(dog)
    requires InState(ws[e + 1].s.tables, h, Live) && TicksInTime(ws, steps, i, e, n)
    ensures h in ws[n].s.tables.workers && (InState(ws[n].s.tables, h, Evicted) ==> h in ws[n].left)
    ensures n < |steps| && steps[n].EvictNext? ==>
      && steps[n].a in ws[n].actors && ws[n].actors[steps[n].a].Evicting?
      && ws[n].actors[steps[n].a].todo != [] && ws[n].actors[steps[n].a].todo[0] != h
  {
    SafeHolds(ws, steps, dog, i, e, n, h);
    if n < |steps| {
      TraceStep(ws, steps, n);
    }
  }

  // ---- Configured watchdogs ----

  ghost predicate Configured(steps: seq<Step>, cfg: Watchdog.Config) {
    forall k :: 0 <= k < |steps| && steps[k].StartTick? ==>
      steps[k].staleAfter == cfg.StaleAfter() && steps[k].evictAfter == cfg.EvictAfter()
  }

  ghost predicate NoTick(steps: seq<Step>, from: int, to: int) {
    forall k :: from < k < to && 0 <= k < |steps| ==> !steps[k].StartTick?
  }

  /** Ticks start at most so many seconds apart. */
  ghost predicate TicksWithin(ws: seq<World>, steps: seq<Step>, gap: int)
    requires |ws| == |steps| + 1
  {
    forall i, m :: 0 <= i < m < |steps| && steps[i].StartTick? && steps[m].StartTick? && NoTick(steps, i, m) ==>
      ws[m].now - ws[i].now <= gap
  }

  /** A tick from i to e, the next one from m on, and a moment n in it or after it but before a third one. */
  ghost predicate TwoTicks(steps: seq<Step>, dog: nat, i: int, e: int, m: int, n: int) {
    && 0 <= i < e < m < n <= |steps| && steps[i].StartTick? && steps[e] == EndTick(dog) && steps[m].StartTick?
    && NoTick(steps, i, m) && NoTick(steps, m, n)
  }

  ghost predicate LiveAfter(ws: seq<World>, e: int, h: Id)
    requires 0 <= e < |ws| - 1
  {
    InState(ws[e + 1].s.tables, h, Live)
  }

  predicate ForcedOut(w: World, h: Id) {
    InState(w.s.tables, h, Evicted) && h !in w.left
  }

  /** Nobody live after one tick is evicted in the next. */
  ghost predicate NextTickSpares(ws: seq<World>, steps: seq<Step>, dog: nat)
    requires |ws| == |steps| + 1
  {
    forall i, e, m, n, h :: TwoTicks(steps, dog, i, e, m, n) && LiveAfter(ws, e, h) ==> !ForcedOut(ws[n], h)
  }

  ghost predicate TicksOf(ws: seq<World>, steps: seq<Step>, dog: nat, cfg: Watchdog.Config, gap: int) {
    Trace(ws, steps) && SoleWatchdog(steps, dog) && Configured(steps, cfg) && TicksWithin(ws, steps, gap)
  }

  /** In every run of one watchdog with this configuration and ticks at most that far apart. */
  ghost predicate GivesSecondChance(cfg: Watchdog.Config, gap: int) {
    forall ws, steps, dog :: TicksOf(ws, steps, dog, cfg, gap) ==> NextTickSpares(ws, steps, dog)
  }

  lemma RoomySpares(ws: seq<World>, steps: seq<Step>, dog: nat, cfg: Watchdog.Config, gap: int)
    requires TicksOf(ws, steps, dog, cfg, gap) && cfg.EvictAfter() >= cfg.StaleAfter() + gap
    ensures NextTickSpares(ws, steps, dog)
  {
    hide Moves, InState;
    assert |ws| == |steps| + 1;
    forall i, e, m, n, h | TwoTicks(steps, dog, i, e, m, n) && LiveAfter(ws, e, h)
      ensures !ForcedOut(ws[n], h)
    {
      assert steps[i].staleAfter == cfg.StaleAfter();
      forall k | e < k < n && steps[k].StartTick?
        ensures ws[k].now - ws[i].now <= steps[k].evictAfter - steps[i].staleAfter
      {
        assert k == m;
      }
      SparedInRuns(ws, steps, dog, i, e, n, h);
    }
  }

  // ---- Ticks too far apart ----

  /** What the run below is about: the clock, the watchdog, one worker. */
  ghost predicate Scene(w: World, now: int, actors: map<nat, Actor>, worker: Worker) {
    w.now == now && w.actors == actors && w.s.tables.workers == map["h" := worker] && w.left == {}
  }

  const SILENT := Worker("r", 0, 0, Live)

  /** Registration at 0, and a tick that finds the worker exactly as old as is allowed. */
  lemma QuietTick(cfg: Watchdog.Config) returns (ws: seq<World>, steps: seq<Step>)
    ensures Trace(ws, steps) && |ws| == 8 && ws[2].now == cfg.StaleAfter()
    ensures Scene(ws[7], cfg.StaleAfter(), map[], SILENT)
    ensures steps == [Request(TxRegister("h", "r")), Elapse(cfg.StaleAfter()),
                      StartTick(0, cfg.StaleAfter(), cfg.EvictAfter()), AgeNow(0), StartEvict(0, []),
                      EndEvict(0), EndTick(0)]
  {
    hide Trace, Moves, After, Can;
    var stale, evict := cfg.StaleAfter(), cfg.EvictAfter();
    var w;
    ws, steps := [Start(0)], [];
    StartShows();
    RegisterScene();
    ws, steps, w := Extend(ws, steps, Request(TxRegister("h", "r")));
    ElapseScene(w, 0, map[], SILENT, stale);
    ws, steps, w := Extend(ws, steps, Elapse(stale));
    StartScene(w, stale, SILENT, stale, evict);
    ws, steps, w := Extend(ws, steps, StartTick(0, stale, evict));
    QuietAgeScene(w, stale, stale - evict);
    ws, steps, w := Extend(ws, steps, AgeNow(0));
    NobodyScene(w, stale, stale - evict);
    ws, steps, w := Extend(ws, steps, StartEvict(0, []));
    EndEvictScene(w, stale, stale - evict);
    ws, steps, w := Extend(ws, steps, EndEvict(0));
    EndTickScene(w, stale);
    ws, steps, w := Extend(ws, steps, EndTick(0));
  }

  lemma RegisterScene()
    ensures var step := Request(TxRegister("h", "r"));
      Can(Start(0), step) && Scene(After(Start(0), step), 0, map[], SILENT)
  {
    hide Appended;
  }

  lemma ElapseScene(w: World, now: int, actors: map<nat, Actor>, worker: Worker, seconds: nat)
    requires Scene(w, now, actors, worker)
    ensures Can(w, Elapse(seconds)) && Scene(After(w, Elapse(seconds)), now + seconds, actors, worker)
  {
  }

  lemma StartScene(w: World, now: int, worker: Worker, staleAfter: int, evictAfter: int)
    requires Scene(w, now, map[], worker) && worker.state == Live
    ensures var step := StartTick(0, staleAfter, evictAfter);
      Can(w, step) && Scene(After(w, step), now,
        map[0 := Ageing(now - staleAfter, now - evictAfter, worker.heartbeat < now - staleAfter)], worker)
  {
    assert SilentLive(w.s.tables, now - staleAfter) == if worker.heartbeat < now - staleAfter then {"h"} else {};
  }

  lemma QuietAgeScene(w: World, now: int, cutoff: int)
    requires Scene(w, now, map[0 := Ageing(0, cutoff, false)], SILENT)
    ensures Can(w, AgeNow(0)) && Scene(After(w, AgeNow(0)), now, map[0 := Selecting(cutoff)], SILENT)
  {
    assert map[0 := Ageing(0, cutoff, false)][0 := Selecting(cutoff)] == map[0 := Selecting(cutoff)];
  }

  lemma NobodyScene(w: World, now: int, cutoff: int)
    requires Scene(w, now, map[0 := Selecting(cutoff)], SILENT)
    ensures Can(w, StartEvict(0, []))
    ensures Scene(After(w, StartEvict(0, [])), now, map[0 := Evicting(cutoff, [], [])], SILENT)
  {
    assert SilentStale(w.s.tables, cutoff) == {};
    assert map[0 := Selecting(cutoff)][0 := Evicting(cutoff, [], [])] == map[0 := Evicting(cutoff, [], [])];
  }

  lemma EndEvictScene(w: World, now: int, cutoff: int)
    requires Scene(w, now, map[0 := Evicting(cutoff, [], [])], SILENT)
    ensures Can(w, EndEvict(0)) && Scene(After(w, EndEvict(0)), now, map[0 := Requeueing([])], SILENT)
  {
    assert map[0 := Evicting(cutoff, [], [])][0 := Requeueing([])] == map[0 := Requeueing([])];
  }

  lemma EndTickScene(w: World, now: int)
    requires Scene(w, now, map[0 := Requeueing([])], SILENT)
    ensures Can(w, EndTick(0)) && Scene(After(w, EndTick(0)), now, map[], SILENT)
  {
    assert w.actors - {0} == map[];
  }

  /** The next tick comes late, marks the worker stale and evicts it at once. */
  lemma LateTick(cfg: Watchdog.Config, gap: int, ws: seq<World>, steps: seq<Step>)
    returns (more: seq<World>, longer: seq<Step>)
    requires gap > 0 && cfg.EvictAfter() < cfg.StaleAfter() + gap
    requires Trace(ws, steps) && |ws| == 8 && Scene(ws[7], cfg.StaleAfter(), map[], SILENT)
    ensures Trace(more, longer) && |more| == 13 && more[..8] == ws
    ensures more[8].now == cfg.StaleAfter() + gap && ForcedOut(more[12], "h")
    ensures longer == steps + [Elapse(gap), StartTick(0, cfg.StaleAfter(), cfg.EvictAfter()), AgeNow(0),
                               StartEvict(0, ["h"]), EvictNext(0)]
  {
    hide Trace, Moves, After, Can;
    var stale, evict := cfg.StaleAfter(), cfg.EvictAfter();
    var now := stale + gap;
    var w := ws[7];
    ElapseScene(w, stale, map[], SILENT, gap);
    more, longer, w := Extend(ws, steps, Elapse(gap));
    StartScene(w, now, SILENT, stale, evict);
    more, longer, w := Extend(more, longer, StartTick(0, stale, evict));
    LateAgeScene(w, now, gap, now - evict);
    more, longer, w := Extend(more, longer, AgeNow(0));
    SelectScene(w, now, now - evict);
    more, longer, w := Extend(more, longer, StartEvict(0, ["h"]));
    EvictScene(w, now, now - evict);
    more, longer, w := Extend(more, longer, EvictNext(0));
  }

  lemma LateAgeScene(w: World, now: int, staleCutoff: int, cutoff: int)
    requires staleCutoff > 0 && Scene(w, now, map[0 := Ageing(staleCutoff, cutoff, true)], SILENT)
    ensures Can(w, AgeNow(0))
    ensures Scene(After(w, AgeNow(0)), now, map[0 := Selecting(cutoff)], SILENT.(state := Stale))
  {
    assert map[0 := Ageing(staleCutoff, cutoff, true)][0 := Selecting(cutoff)] == map[0 := Selecting(cutoff)];
  }

  lemma SelectScene(w: World, now: int, cutoff: int)
    requires cutoff > 0 && Scene(w, now, map[0 := Selecting(cutoff)], SILENT.(state := Stale))
    ensures Can(w, StartEvict(0, ["h"]))
    ensures Scene(After(w, StartEvict(0, ["h"])), now, map[0 := Evicting(cutoff, ["h"], [])], SILENT.(state := Stale))
  {
    assert SilentStale(w.s.tables, cutoff) == {"h"};
    assert map[0 := Selecting(cutoff)][0 := Evicting(cutoff, ["h"], [])] == map[0 := Evicting(cutoff, ["h"], [])];
  }

  lemma EvictScene(w: World, now: int, cutoff: int)
    requires Scene(w, now, map[0 := Evicting(cutoff, ["h"], [])], SILENT.(state := Stale))
    ensures Can(w, EvictNext(0)) && ForcedOut(After(w, EvictNext(0)), "h")
  {
    hide Appended;
  }

  /** With too little room some run evicts a worker in the very next tick. */
  lemma TightEvicts(cfg: Watchdog.Config, gap: int) returns (ws: seq<World>, steps: seq<Step>)
    requires gap > 0 && cfg.EvictAfter() < cfg.StaleAfter() + gap
    ensures TicksOf(ws, steps, 0, cfg, gap) && !NextTickSpares(ws, steps, 0)
  {
    hide Trace;
    var first, opening := QuietTick(cfg);
    ws, steps := LateTick(cfg, gap, first, opening);
    forall k | 0 <= k < |steps| && steps[k].StartTick?
      ensures k == 2 || k == 8
    {
    }
    assert ws[2] == first[2] && ws[7] == first[7];
    assert steps[2].StartTick? && steps[6] == EndTick(0) && steps[8].StartTick?;
    assert TwoTicks(steps, 0, 2, 6, 8, 12) && LiveAfter(ws, 6, "h") && ForcedOut(ws[12], "h");
  }

  /** A configuration gives every live worker a second chance, in every run with ticks at most so far apart, exactly
      when its eviction age leaves that much room after its stale age. */
  lemma GivesSecondChanceIff(cfg: Watchdog.Config, gap: int)
    requires gap > 0
    ensures GivesSecondChance(cfg, gap) <==> cfg.EvictAfter() >= cfg.StaleAfter() + gap
  {
    if cfg.EvictAfter() >= cfg.StaleAfter() + gap {
      forall ws, steps, dog | TicksOf(ws, steps, dog, cfg, gap)
        ensures NextTickSpares(ws, steps, dog)
      {
        RoomySpares(ws, steps, dog, cfg, gap);
      }
    } else {
      var ws, steps := TightEvicts(cfg, gap);
    }
  }

  /** With the default eviction age, exactly while ticks are at most an interval apart. */
  lemma DefaultGivesSecondChance(cfg: Watchdog.Config, gap: int)
    requires gap > 0 && cfg.evictAfter <= 0
    ensures GivesSecondChance(cfg, gap) <==> gap <= cfg.Interval()
  {
    GivesSecondChanceIff(cfg, gap);
  }

  // ---- Evicting a worker that was heard from ----

  /** The step is a heartbeat of the worker, at or after the cutoff. */
  ghost predicate HeardAt(ws: seq<World>, steps: seq<Step>, j: int, h: Id, cutoff: int) {
    0 <= j < |steps| && j < |ws| && steps[j] == Request(TxBeat(h)) && ws[j].now >= cutoff
  }

  ghost predicate HeardBetween(ws: seq<World>, steps: seq<Step>, i: int, n: int, h: Id, cutoff: int) {
    exists j :: i < j < n && HeardAt(ws, steps, j, h, cutoff)
  }

  lemma BeatOnly(s: State, tx: Tx, now: int, h: Id)
    requires Legal(s, tx) && h in s.tables.workers
    ensures var t := Apply(s, tx, now).tables;
      && h in t.workers
      && t.workers[h].heartbeat ==
           (if tx == TxBeat(h) && s.tables.workers[h].state != Evicted then now else s.tables.workers[h].heartbeat)
      && (s.tables.workers[h].state == Evicted ==> t.workers[h].state == Evicted)
  {
    hide Appended, Oldest;
  }

  lemma BeatIsRequest(w: World, step: Step, h: Id)
    requires Can(w, step)
    ensures TxOf(w, step) == TxBeat(h) <==> step == Request(TxBeat(h))
  {
  }

  /** As long as a selected worker is not evicted, its heartbeat is past the cutoff exactly when it was heard from since
      the selection, at or after the cutoff. */
  lemma {:induction false} HeardSince(ws: seq<World>, steps: seq<Step>, i: nat, n: nat, h: Id)
    requires Trace(ws, steps) && i < n < |ws| && steps[i].StartEvict? && h in steps[i].ids
    ensures steps[i].a in ws[i].actors && ws[i].actors[steps[i].a].Selecting?
    ensures h in ws[n].s.tables.workers
    ensures var cutoff := ws[i].actors[steps[i].a].cutoff;
      !InState(ws[n].s.tables, h, Evicted) ==>
        (ws[n].s.tables.workers[h].heartbeat >= cutoff <==> HeardBetween(ws, steps, i, n, h, cutoff))
  {
    hide Apply, ActorsAfter;
    assert |ws| == |steps| + 1;
    TraceStep(ws, steps, i);
    var cutoff := ws[i].actors[steps[i].a].cutoff;
    var w, step := ws[n - 1], steps[n - 1];
    TraceStep(ws, steps, n - 1);
    TxIsLegal(w, step);
    BeatIsRequest(w, step, h);
    if n == i + 1 {
      assert h in SilentStale(w.s.tables, cutoff);
      BeatOnly(w.s, TxOf(w, step), w.now, h);
    } else {
      HeardSince(ws, steps, i, n - 1, h);
      BeatOnly(w.s, TxOf(w, step), w.now, h);
      HeardStep(ws, steps, i, n, h, cutoff);
    }
  }

  lemma HeardStep(ws: seq<World>, steps: seq<Step>, i: nat, n: nat, h: Id, cutoff: int)
    requires Trace(ws, steps) && i + 1 < n < |ws|
    ensures HeardBetween(ws, steps, i, n, h, cutoff) <==>
      HeardBetween(ws, steps, i, n - 1, h, cutoff) || HeardAt(ws, steps, n - 1, h, cutoff)
    ensures ws[n - 1].now < cutoff ==> !HeardBetween(ws, steps, i, n - 1, h, cutoff)
  {
    hide Moves;
    if HeardBetween(ws, steps, i, n - 1, h, cutoff) {
      var j :| i < j < n - 1 && HeardAt(ws, steps, j, h, cutoff);
      ClockForward(ws, steps, j, n - 1);
    }
  }

  /** Where a watchdog's list comes from: its latest selection, with the cutoff and some of the ids. */
  lemma {:induction false} SelectionOf(ws: seq<World>, steps: seq<Step>, n: nat, a: nat) returns (i: nat)
    requires Trace(ws, steps) && n < |ws| && a in ws[n].actors && ws[n].actors[a].Evicting?
    ensures i < n && |ws| == |steps| + 1 && steps[i].StartEvict? && steps[i].a == a
    ensures a in ws[i].actors && ws[i].actors[a].Selecting? && ws[i].actors[a].cutoff == ws[n].actors[a].cutoff
    ensures forall j :: i < j < n && steps[j].StartEvict? ==> steps[j].a != a
    ensures forall h :: h in ws[n].actors[a].todo ==> h in steps[i].ids
  {
    hide Apply;
    var w, step := ws[n - 1], steps[n - 1];
    TraceStep(ws, steps, n - 1);
    if step.StartEvict? && step.a == a {
      i := n - 1;
    } else {
      i := SelectionOf(ws, steps, n - 1, a);
    }
  }

  /** Whatever else steps in between, and however many watchdogs there are: an eviction takes a worker whose last
      heartbeat is past the cutoff exactly when the worker was heard from after it was selected. */
  lemma EvictionOfTheHeard(ws: seq<World>, steps: seq<Step>, k: nat, a: nat) returns (i: nat)
    requires Trace(ws, steps) && k < |steps| && steps[k] == EvictNext(a)
    ensures i < k && steps[i].StartEvict? && steps[i].a == a
    ensures forall j :: i < j < k && steps[j].StartEvict? ==> steps[j].a != a
    ensures a in ws[k].actors && ws[k].actors[a].Evicting? && ws[k].actors[a].todo != []
    ensures var h, cutoff := ws[k].actors[a].todo[0], ws[k].actors[a].cutoff;
      && h in steps[i].ids
      && (EvictRow(ws[k].s.tables, h).Some? ==>
            (ws[k].s.tables.workers[h].heartbeat >= cutoff <==> HeardBetween(ws, steps, i, k, h, cutoff)))
  {
    hide Moves;
    TraceStep(ws, steps, k);
    EvictNextCan(ws[k], steps[k], ws[k + 1]);
    i := SelectionOf(ws, steps, k, a);
    assert ws[k].actors[a].todo[0] in ws[k].actors[a].todo;
    HeardSince(ws, steps, i, k, ws[k].actors[a].todo[0]);
  }

  lemma EvictNextCan(w: World, step: Step, next: World)
    requires Moves(w, step, next) && step.EvictNext?
    ensures step.a in w.actors && w.actors[step.a].Evicting? && w.actors[step.a].todo != []
  {
  }
}
