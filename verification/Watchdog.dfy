/** The heartbeat watchdog: its configuration, one undisturbed tick, and when two ticks give a worker a second
    chance. */
module Watchdog {
  import opened Options
  import opened Store
  import opened Dispatches
  import opened Workers

  /** In seconds; zero or less means the default. */
  datatype Config = Config(interval: int, staleAfter: int, evictAfter: int) {
    function Interval(): int { if interval <= 0 then 15 else interval }
    function StaleAfter(): int { if staleAfter <= 0 then 45 else staleAfter }
    function EvictAfter(): int { if evictAfter <= 0 then StaleAfter() + Interval() else evictAfter }
  }

  /** What a tick makes of one worker: first marked stale, then, if it is stale by now, evicted. */
  function Ticked(w: Worker, now: int, cfg: Config): (after: Worker)
    ensures var stale := if cfg.staleAfter > 0 then cfg.staleAfter else 45;
      var interval := if cfg.interval > 0 then cfg.interval else 15;
      var evict := if cfg.evictAfter > 0 then cfg.evictAfter else stale + interval;
      var silent := now - w.heartbeat;
      after == w.(state :=
        if w.state == Evicted || (w.state == Live && silent <= stale) then w.state
        else if silent > evict then Evicted else Stale)
  {
    var aged := Aged(w, now - cfg.StaleAfter());
    if aged.state == Stale && aged.heartbeat < now - cfg.EvictAfter() then aged.(state := Evicted) else aged
  }

  /** The workers a tick evicts. */
  function EvictedAt(t: Tables, now: int, cfg: Config): set<Id> {
    set h | h in t.workers && t.workers[h].state != Evicted && Ticked(t.workers[h], now, cfg).state == Evicted
  }

  function Orphaned(d: Dispatch, gone: set<Id>): (after: Dispatch)
    ensures d.state == Completed || d.handle.None? || d.handle.value !in gone ==> after == d
    ensures d.state != Completed && d.handle.Some? && d.handle.value in gone ==>
      after == d.(state := Pending, handle := None, leasedAt := if d.state == Leased then None else d.leasedAt)
  {
    if d.handle.Some? && d.handle.value in gone then Requeued(d, d.handle.value) else d
  }

  class HeartbeatWatchdog {
    const db: Database
    const workers: WorkerStore
    const dispatch: DispatchStore
    const cfg: Config

    constructor (workers: WorkerStore, dispatch: DispatchStore, cfg: Config)
      requires workers.db == dispatch.db
      ensures Valid() && this.db == workers.db && this.cfg == cfg
    {
      this.db, this.workers, this.dispatch, this.cfg := workers.db, workers, dispatch, cfg;
    }

    predicate Valid() { workers.db == db && dispatch.db == db }

    /** One tick with nobody in between: what becomes of every worker and dispatch, and what is logged. */
    method Tick(now: int) returns (evicted: seq<Id>, ghost released: seq<Id>)
      requires Valid()
      modifies db
      ensures Lists(evicted, old(EvictedAt(db.tables, now, cfg)))
      ensures db.tables.workers.Keys == old(db.tables.workers.Keys)
      ensures forall h :: h in db.tables.workers ==> db.tables.workers[h] == Ticked(old(db.tables.workers[h]), now, cfg)
      ensures db.tables.dispatches.Keys == old(db.tables.dispatches.Keys)
      ensures forall id :: id in db.tables.dispatches ==>
        db.tables.dispatches[id] == Orphaned(old(db.tables.dispatches[id]), old(EvictedAt(db.tables, now, cfg)))
      ensures Lists(released, old(Orphans(db.tables, EvictedAt(db.tables, now, cfg))))
      ensures TickLogged(old(db.log), evicted, released, db.log)
      ensures forall h :: h in evicted <==> (
        && h in db.tables.workers && old(db.tables.workers[h]).state != Evicted
        && db.tables.workers[h].state == Evicted)
      ensures forall id :: id in released <==> (
        && id in db.tables.dispatches && old(db.tables.dispatches[id]).state == Leased
        && old(db.tables.dispatches[id]).handle.Some? && old(db.tables.dispatches[id]).handle.value in evicted)
    {
      hide RequeuedByAll, Orphaned, Requeued, TickLogged, DeparturesLogged, ReleasesLogged, Orphans, EvictedAt, Lists;
      ghost var before := db.Current();
      evicted := Cull(now);
      ghost var culled := db.Current();
      ListedOnce(evicted, EvictedAt(before.tables, now, cfg));
      released := RequeueAll(evicted);
      OrphansSame(before.tables, culled.tables, evicted, EvictedAt(before.tables, now, cfg));
      TickJoins(before.log, evicted, culled.log, released, db.log);
      ListedRight(before.tables, now, cfg, evicted, released);
      forall id | id in db.tables.dispatches
        ensures db.tables.dispatches[id] == Orphaned(before.tables.dispatches[id], EvictedAt(before.tables, now, cfg))
      {
        OrphansAgree(before.tables.dispatches[id], evicted, EvictedAt(before.tables, now, cfg));
      }
    }

    /** The tick's two phases over the workers. */
    method Cull(now: int) returns (evicted: seq<Id>)
      requires Valid()
      modifies db
      ensures Lists(evicted, old(EvictedAt(db.tables, now, cfg)))
      ensures db.tables.workers.Keys == old(db.tables.workers.Keys)
      ensures forall h :: h in db.tables.workers ==> db.tables.workers[h] == Ticked(old(db.tables.workers[h]), now, cfg)
      ensures db.tables.dispatches == old(db.tables.dispatches)
      ensures DeparturesLogged(old(db.log), evicted, db.log)
    {
      hide EvictEach, DeparturesLogged;
      ghost var before := db.tables;
      var stale := workers.MarkStale(now - cfg.StaleAfter());
      ghost var aged := db.Current();
      evicted := workers.MarkEvicted(now - cfg.EvictAfter());
      EvictEachMeaning(aged, evicted);
      EvictEachLogs(aged, evicted, SilentStale(aged.tables, now - cfg.EvictAfter()));
      assert SilentStale(aged.tables, now - cfg.EvictAfter()) == EvictedAt(before, now, cfg);
    }

    method RequeueAll(evicted: seq<Id>) returns (ghost released: seq<Id>)
      requires Valid() && forall i, j :: 0 <= i < j < |evicted| ==> evicted[i] != evicted[j]
      modifies db
      ensures db.tables.workers == old(db.tables.workers)
      ensures db.tables.dispatches.Keys == old(db.tables.dispatches.Keys)
      ensures forall id :: id in db.tables.dispatches ==>
        db.tables.dispatches[id] == RequeuedByAll(old(db.tables.dispatches[id]), evicted)
      ensures Lists(released, old(OrphansOf(db.tables, evicted)))
      ensures ReleasesLogged(old(db.log), released, db.log)
    {
      hide Requeued, Untarget, ReleaseEach, RequeuedByAll, Lists, ReleasesLogged;
      ghost var before := db.tables;
      ghost var log0 := db.log;
      released := [];
      NothingRequeued(before, log0);
      for k := 0 to |evicted|
        invariant db.tables.workers == before.workers
        invariant db.tables.dispatches.Keys == before.dispatches.Keys
        invariant forall id :: id in db.tables.dispatches ==>
          db.tables.dispatches[id] == RequeuedByAll(before.dispatches[id], evicted[..k])
        invariant Lists(released, OrphansOf(before, evicted[..k]))
        invariant ReleasesLogged(log0, released, db.log)
      {
        ghost var s := db.Current();
        var ids := dispatch.RequeueByWorker(evicted[k]);
        SameLeases(before, s.tables, evicted, k);
        ReleasesOf(s, ids, evicted[k]);
        ReleasesJoin(log0, released, s.log, ids, db.log);
        OrphansMore(before, evicted, k, released, ids);
        released := released + ids;
        forall id | id in db.tables.dispatches
          ensures db.tables.dispatches[id] == RequeuedByAll(before.dispatches[id], evicted[..k + 1])
        {
          RequeuedMore(before.dispatches[id], evicted, k);
        }
      }
      assert evicted[..|evicted|] == evicted;
    }
  }

  /** Leases on work aimed at workers in the set. */
  function Orphans(t: Tables, gone: set<Id>): set<Id> {
    set id | id in t.dispatches && t.dispatches[id].state == Leased
          && t.dispatches[id].handle.Some? && t.dispatches[id].handle.value in gone
  }

  function OrphansOf(t: Tables, gone: seq<Id>): set<Id> {
    Orphans(t, set h | h in gone)
  }

  /** First one departure per evicted worker, then one expiry per lease taken from them. */
  ghost predicate TickLogged(before: seq<Event>, evicted: seq<Id>, released: seq<Id>, after: seq<Event>) {
    && |before| + |evicted| <= |after|
    && DeparturesLogged(before, evicted, after[..|before| + |evicted|])
    && ReleasesLogged(after[..|before| + |evicted|], released, after)
  }

  lemma ListedRight(t: Tables, now: int, cfg: Config, evicted: seq<Id>, released: seq<Id>)
    requires Lists(evicted, EvictedAt(t, now, cfg)) && Lists(released, Orphans(t, EvictedAt(t, now, cfg)))
    ensures forall h :: h in evicted <==>
      h in t.workers && t.workers[h].state != Evicted && Ticked(t.workers[h], now, cfg).state == Evicted
    ensures forall id :: id in released <==> (
      && id in t.dispatches && t.dispatches[id].state == Leased
      && t.dispatches[id].handle.Some? && t.dispatches[id].handle.value in evicted)
  {
    hide Ticked;
  }

  lemma TickJoins(before: seq<Event>, evicted: seq<Id>, mid: seq<Event>, released: seq<Id>, after: seq<Event>)
    requires DeparturesLogged(before, evicted, mid) && ReleasesLogged(mid, released, after)
    ensures TickLogged(before, evicted, released, after)
  {
    assert after[..|before| + |evicted|] == mid;
  }

  ghost predicate DeparturesLogged(log: seq<Event>, handles: seq<Id>, after: seq<Event>) {
    log <= after && DeparturesOf(after[|log|..], handles)
  }

  ghost predicate DeparturesOf(events: seq<Event>, handles: seq<Id>) {
    && |events| == |handles|
    && forall k :: 0 <= k < |handles| ==> events[k].kind == WorkerDeregistered && events[k].subject == handles[k]
  }

  lemma {:induction false} EvictEachLogs(s: State, handles: seq<Id>, stale: set<Id>)
    requires Lists(handles, stale)
    requires forall h :: h in stale ==> h in s.tables.workers && s.tables.workers[h].state == Stale
    ensures DeparturesLogged(s.log, handles, EvictEach(s, handles).log)
    decreases |handles|
  {
    hide Appended;
    if handles != [] {
      var front, last := handles[..|handles| - 1], handles[|handles| - 1];
      assert last in handles && last !in front;
      EvictEachLogs(s, front, set h | h in front);
      EvictEachMeaning(s, front);
      var before := EvictEach(s, front);
      DepartureMore(s.log, handles, before, last);
    }
  }

  lemma DepartureMore(log: seq<Event>, handles: seq<Id>, before: State, last: Id)
    requires handles != [] && handles[|handles| - 1] == last
    requires DeparturesLogged(log, handles[..|handles| - 1], before.log) && EvictRow(before.tables, last).Some?
    ensures DeparturesLogged(log, handles, Evict(before, last).log)
  {
    hide MaxSequence;
    var after := Evict(before, last).log;
    assert after[|log|..] == before.log[|log|..] + [after[|before.log|]];
    assert handles == handles[..|handles| - 1] + [last];
  }

  lemma NothingRequeued(t: Tables, log: seq<Event>)
    ensures Lists([], OrphansOf(t, [])) && ReleasesLogged(log, [], log)
    ensures forall d :: RequeuedByAll(d, []) == d
  {
  }

  /** Requeueing the others leaves a worker's own leases alone. */
  lemma SameLeases(before: Tables, now: Tables, evicted: seq<Id>, k: nat)
    requires k < |evicted| && forall i, j :: 0 <= i < j < |evicted| ==> evicted[i] != evicted[j]
    requires now.dispatches.Keys == before.dispatches.Keys
    requires forall id :: id in now.dispatches ==>
      now.dispatches[id] == RequeuedByAll(before.dispatches[id], evicted[..k])
    ensures LeasedTo(now, evicted[k]) == LeasedTo(before, evicted[k])
  {
    hide RequeuedByAll;
    forall id | id in now.dispatches
      ensures id in LeasedTo(now, evicted[k]) <==> id in LeasedTo(before, evicted[k])
    {
      RequeuedByAllMeaning(before.dispatches[id], evicted[..k]);
    }
  }

  lemma ReleasesOf(s: State, ids: seq<Id>, handle: Id)
    requires Lists(ids, LeasedTo(s.tables, handle))
    ensures var after := Untarget(ReleaseEach(s, ids), handle);
      after.tables.workers == s.tables.workers && ReleasesLogged(s.log, ids, after.log)
  {
    ReleaseEachMeaning(s, ids);
  }

  lemma ReleasesJoin(a: seq<Event>, first: seq<Id>, b: seq<Event>, second: seq<Id>, c: seq<Event>)
    requires ReleasesLogged(a, first, b) && ReleasesLogged(b, second, c)
    ensures ReleasesLogged(a, first + second, c)
  {
    assert c[|a|..] == b[|a|..] + c[|b|..];
  }

  lemma OrphansMore(t: Tables, evicted: seq<Id>, k: nat, released: seq<Id>, ids: seq<Id>)
    requires k < |evicted| && forall i, j :: 0 <= i < j < |evicted| ==> evicted[i] != evicted[j]
    requires Lists(released, OrphansOf(t, evicted[..k])) && Lists(ids, LeasedTo(t, evicted[k]))
    ensures Lists(released + ids, OrphansOf(t, evicted[..k + 1]))
  {
    assert forall h :: h in evicted[..k + 1] <==> h in evicted[..k] || h == evicted[k];
    forall id
      ensures id in OrphansOf(t, evicted[..k + 1]) <==>
        id in OrphansOf(t, evicted[..k]) || id in LeasedTo(t, evicted[k])
      ensures !(id in OrphansOf(t, evicted[..k]) && id in LeasedTo(t, evicted[k]))
    {
    }
    ListsJoin(released, OrphansOf(t, evicted[..k]), ids, LeasedTo(t, evicted[k]), OrphansOf(t, evicted[..k + 1]));
  }

  lemma ListsJoin(a: seq<Id>, first: set<Id>, b: seq<Id>, second: set<Id>, all: set<Id>)
    requires Lists(a, first) && Lists(b, second)
    requires forall id :: (id in all <==> id in first || id in second) && !(id in first && id in second)
    ensures Lists(a + b, all)
  {
    assert forall k :: 0 <= k < |a| ==> a[k] in a;
    assert forall k :: 0 <= k < |b| ==> b[k] in b;
  }

  lemma RequeuedMore(d: Dispatch, evicted: seq<Id>, k: nat)
    requires k < |evicted|
    ensures RequeuedByAll(d, evicted[..k + 1]) == Requeued(RequeuedByAll(d, evicted[..k]), evicted[k])
  {
    assert evicted[..k + 1][..k] == evicted[..k];
  }

  lemma OrphansSame(t: Tables, u: Tables, gone: seq<Id>, all: set<Id>)
    requires t.dispatches == u.dispatches && forall h :: h in gone <==> h in all
    ensures OrphansOf(u, gone) == Orphans(t, all)
  {
  }

  lemma ListedOnce(ids: seq<Id>, keys: set<Id>)
    requires Lists(ids, keys)
    ensures forall id :: id in ids <==> id in keys
    ensures forall i, j :: 0 <= i < j < |ids| ==> ids[i] != ids[j]
  {
  }

  function RequeuedByAll(d: Dispatch, gone: seq<Id>): Dispatch {
    if gone == [] then d else Requeued(RequeuedByAll(d, gone[..|gone| - 1]), gone[|gone| - 1])
  }

  lemma {:induction false} OrphansAgree(d: Dispatch, gone: seq<Id>, all: set<Id>)
    requires forall h :: h in gone <==> h in all
    ensures RequeuedByAll(d, gone) == Orphaned(d, all)
    decreases |gone|
  {
    RequeuedByAllMeaning(d, gone);
  }

  lemma {:induction false} RequeuedByAllMeaning(d: Dispatch, gone: seq<Id>)
    ensures RequeuedByAll(d, gone) == if d.handle.Some? && d.handle.value in gone then Requeued(d, d.handle.value)
      else d
  {
    if gone != [] {
      RequeuedByAllMeaning(d, gone[..|gone| - 1]);
      assert forall h :: h in gone <==> h in gone[..|gone| - 1] || h == gone[|gone| - 1];
    }
  }

  // ---- Two ticks ----

  /** Heartbeats at the given times. */
  function Beaten(w: Worker, times: seq<int>): Worker
    decreases |times|
  {
    if times == [] || w.state == Evicted then w
    else Beaten(w.(heartbeat := times[0], state := Live), times[1..])
  }

  /** The heartbeat transactions of one worker at the given times; one that fails changes nothing. */
  function BeatEach(t: Tables, handle: Id, times: seq<int>): Tables
    decreases |times|
  {
    if times == [] then t
    else
      var beat := BeatRow(t, handle, times[0]);
      BeatEach(if beat.Some? then beat.value else t, handle, times[1..])
  }

  /** They make of the worker what Beaten says, and nothing of anybody else. */
  lemma {:induction false} BeatIsBeaten(t: Tables, handle: Id, times: seq<int>)
    requires handle in t.workers
    ensures BeatEach(t, handle, times) == t.(workers := t.workers[handle := Beaten(t.workers[handle], times)])
    decreases |times|
  {
    if times == [] {
      assert t.workers[handle := t.workers[handle]] == t.workers;
    } else {
      var beat := BeatRow(t, handle, times[0]);
      BeatIsBeaten(if beat.Some? then beat.value else t, handle, times[1..]);
      EvictedIsNotBeaten(t.workers[handle], times[1..]);
    }
  }

  lemma EvictedIsNotBeaten(w: Worker, times: seq<int>)
    ensures w.state == Evicted ==> Beaten(w, times) == w
  {
  }

  lemma {:induction false} BeatenMeaning(w: Worker, times: seq<int>)
    requires w.state != Evicted
    ensures var after := Beaten(w, times);
      && after.state != Evicted
      && (times == [] ==> after == w)
      && (times != [] ==> after == w.(heartbeat := times[|times| - 1], state := Live))
    decreases |times|
  {
    if times != [] {
      BeatenMeaning(w.(heartbeat := times[0], state := Live), times[1..]);
    }
  }

  /** Every worker live after a tick survives the next one, whatever heartbeats arrive in between. */
  ghost predicate SecondChance(first: int, second: int, cfg: Config) {
    forall w: Worker, times: seq<int> {:trigger Beaten(w, times)} ::
      (Ticked(w, first, cfg).state == Live && forall i :: 0 <= i < |times| ==> first <= times[i] <= second) ==>
        Ticked(Beaten(Ticked(w, first, cfg), times), second, cfg).state != Evicted
  }

  /** Two ticks give a second chance exactly when the eviction age leaves room for the time between them. */
  lemma SecondChanceIff(first: int, second: int, cfg: Config)
    requires first < second
    ensures SecondChance(first, second, cfg) <==> cfg.EvictAfter() >= cfg.StaleAfter() + (second - first)
  {
    if cfg.EvictAfter() >= cfg.StaleAfter() + (second - first) {
      forall w: Worker, times: seq<int> | Ticked(w, first, cfg).state == Live &&
        forall i :: 0 <= i < |times| ==> first <= times[i] <= second
        ensures Ticked(Beaten(Ticked(w, first, cfg), times), second, cfg).state != Evicted
      {
        BeatenMeaning(Ticked(w, first, cfg), times);
      }
    } else {
      var w := Worker("", 0, first - cfg.StaleAfter(), Live);
      var none: seq<int> := [];
      assert Ticked(w, first, cfg) == w;
      assert Beaten(w, none) == w;
      assert Ticked(w, second, cfg).state == Evicted;
    }
  }

  /** With the default eviction age, the second chance is there exactly while ticks are at most an interval apart. */
  lemma DefaultSecondChance(first: int, second: int, cfg: Config)
    requires first < second && cfg.evictAfter <= 0
    ensures SecondChance(first, second, cfg) <==> second - first <= cfg.Interval()
  {
    SecondChanceIff(first, second, cfg);
  }
}
