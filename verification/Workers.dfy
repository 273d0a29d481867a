/** The worker registry: registration, heartbeats, clean exit, the two phases of eviction, and the routing of new
    dispatches to live workers. */
module Workers {
  import opened Options
  import opened Store
  import opened Dispatches

  // ---- Projections ----

  function InsertWorker(t: Tables, handle: Id, role: string, now: int): Option<Tables> {
    if handle in t.workers then None
    else Some(t.(workers := t.workers[handle := Worker(role, now, now, Live)]))
  }

  /** A heartbeat revives a stale worker, never an evicted one. */
  function BeatRow(t: Tables, handle: Id, now: int): Option<Tables> {
    if handle in t.workers && t.workers[handle].state != Evicted then
      Some(t.(workers := t.workers[handle := t.workers[handle].(heartbeat := now, state := Live)]))
    else None
  }

  function LeaveRow(t: Tables, handle: Id): Option<Tables> {
    if handle in t.workers && t.workers[handle].state != Evicted then
      Some(t.(workers := t.workers[handle := t.workers[handle].(state := Evicted)]))
    else None
  }

  /** Only a worker that is still stale is evicted; otherwise the transaction is abandoned, event and all. */
  function EvictRow(t: Tables, handle: Id): Option<Tables> {
    if handle in t.workers && t.workers[handle].state == Stale then
      Some(t.(workers := t.workers[handle := t.workers[handle].(state := Evicted)]))
    else None
  }

  function Aged(w: Worker, cutoff: int): Worker {
    if w.state == Live && w.heartbeat < cutoff then w.(state := Stale) else w
  }

  /** A bulk update that logs nothing. */
  function AgeRows(t: Tables, cutoff: int): Tables {
    t.(workers := map h | h in t.workers :: Aged(t.workers[h], cutoff))
  }

  // ---- Transactions ----

  /** Worker events belong to no run: they are numbered under the empty run id. */
  const NO_RUN: Id := ""

  function Register(s: State, handle: Id, role: string, now: int): State {
    Commit(s, NO_RUN, WorkerRegistered, handle, t => InsertWorker(t, handle, role, now))
  }

  function Beat(s: State, handle: Id, now: int): State {
    Commit(s, NO_RUN, WorkerHeartbeat, handle, t => BeatRow(t, handle, now))
  }

  function Leave(s: State, handle: Id): State {
    Commit(s, NO_RUN, WorkerDeregistered, handle, t => LeaveRow(t, handle))
  }

  function Evict(s: State, handle: Id): State {
    Commit(s, NO_RUN, WorkerDeregistered, handle, t => EvictRow(t, handle))
  }

  function Age(s: State, cutoff: int): State {
    s.(tables := AgeRows(s.tables, cutoff))
  }

  function SilentLive(t: Tables, cutoff: int): set<Id> {
    set h | h in t.workers && t.workers[h].state == Live && t.workers[h].heartbeat < cutoff
  }

  function SilentStale(t: Tables, cutoff: int): set<Id> {
    set h | h in t.workers && t.workers[h].state == Stale && t.workers[h].heartbeat < cutoff
  }

  // ---- Careers ----

  predicate AboutWorker(kind: Kind) {
    kind.WorkerRegistered? || kind.WorkerHeartbeat? || kind.WorkerDeregistered?
  }

  /** What the log says about one worker. */
  function Career(log: seq<Event>, handle: Id): seq<Kind> {
    KindsOf(log, AboutWorker, handle)
  }

  datatype Standing = Unknown | Active | Gone | Impossible

  function Moved(standing: Standing, kind: Kind): Standing {
    match kind
    case WorkerRegistered => if standing == Unknown then Active else Impossible
    case WorkerHeartbeat => if standing == Active then Active else Impossible
    case WorkerDeregistered => if standing == Active then Gone else Impossible
    case _ => Impossible
  }

  function Follow(career: seq<Kind>): Standing {
    if career == [] then Unknown else Moved(Follow(career[..|career| - 1]), career[|career| - 1])
  }

  /** Staleness is not an event: the log cannot tell a live worker from a stale one. */
  function StandingOf(t: Tables, handle: Id): Standing {
    if handle !in t.workers then Unknown else if t.workers[handle].state == Evicted then Gone else Active
  }

  ghost predicate RegistryIsReplay(s: State) {
    forall handle :: Follow(Career(s.log, handle)) == StandingOf(s.tables, handle)
  }

  /** Registered first and once, then heartbeats; a departure happens at most once and ends everything. */
  lemma {:induction false} CareerShape(career: seq<Kind>)
    requires Follow(career) != Impossible
    ensures Follow(career) == Unknown <==> career == []
    ensures career != [] ==> career[0] == WorkerRegistered
    ensures forall i :: 0 < i < |career| - 1 ==> career[i] == WorkerHeartbeat
    ensures |career| > 1 ==> career[|career| - 1] == WorkerHeartbeat || career[|career| - 1] == WorkerDeregistered
    ensures Follow(career) == Gone <==> |career| > 1 && career[|career| - 1] == WorkerDeregistered
  {
    if career != [] {
      var n := |career| - 1;
      CareerShape(career[..n]);
      assert n > 1 ==> career[n - 1] == career[..n][n - 1];
    }
  }

  lemma FollowOne(career: seq<Kind>, kind: Kind)
    ensures Follow(career + [kind]) == Moved(Follow(career), kind)
    ensures career + [] == career
  {
    assert (career + [kind])[..|career|] == career;
  }

  lemma MoveKeeps(s: State, kind: Kind, handle: Id, tables: Tables)
    requires RegistryIsReplay(s) && AboutWorker(kind)
    requires StandingOf(tables, handle) == Moved(StandingOf(s.tables, handle), kind)
    requires forall other :: other != handle ==> StandingOf(tables, other) == StandingOf(s.tables, other)
    ensures RegistryIsReplay(State(Appended(s.log, NO_RUN, kind, handle), tables))
  {
    hide Follow, KindsOf, StandingOf, Appended;
    forall other
      ensures Follow(Career(Appended(s.log, NO_RUN, kind, handle), other)) == StandingOf(tables, other)
    {
      KindsOfMore(s.log, NO_RUN, kind, handle, AboutWorker, other);
      FollowOne(Career(s.log, other), kind);
    }
  }

  lemma RegisterKeeps(s: State, handle: Id, role: string, now: int)
    requires RegistryIsReplay(s)
    ensures RegistryIsReplay(Register(s, handle, role, now))
  {
    hide RegistryIsReplay, Appended;
    var rows := InsertWorker(s.tables, handle, role, now);
    if rows.Some? {
      MoveKeeps(s, WorkerRegistered, handle, rows.value);
    }
  }

  lemma BeatKeeps(s: State, handle: Id, now: int)
    requires RegistryIsReplay(s)
    ensures RegistryIsReplay(Beat(s, handle, now))
  {
    hide RegistryIsReplay, Appended;
    var rows := BeatRow(s.tables, handle, now);
    if rows.Some? {
      MoveKeeps(s, WorkerHeartbeat, handle, rows.value);
    }
  }

  lemma LeaveKeeps(s: State, handle: Id)
    requires RegistryIsReplay(s)
    ensures RegistryIsReplay(Leave(s, handle)) && RegistryIsReplay(Evict(s, handle))
  {
    hide RegistryIsReplay, Appended;
    var rows := LeaveRow(s.tables, handle);
    if rows.Some? {
      MoveKeeps(s, WorkerDeregistered, handle, rows.value);
    }
  }

  lemma AgeKeeps(s: State, cutoff: int)
    requires RegistryIsReplay(s)
    ensures RegistryIsReplay(Age(s, cutoff))
  {
    hide Follow, KindsOf;
    var after := Age(s, cutoff);
    forall handle
      ensures Follow(Career(after.log, handle)) == StandingOf(after.tables, handle)
    {
      assert StandingOf(after.tables, handle) == StandingOf(s.tables, handle);
    }
  }

  // ---- The stores ----

  class WorkerStore {
    const db: Database

    constructor (db: Database)
      ensures this.db == db
    {
      this.db := db;
    }

    method RegisterWorker(handle: Id, role: string, now: int) returns (ok: bool)
      modifies db
      ensures db.Current() == Register(old(db.Current()), handle, role, now)
      ensures ok <==> old(handle !in db.tables.workers)
      ensures !ok ==> db.Current() == old(db.Current())
      ensures ok ==> db.log == Appended(old(db.log), NO_RUN, WorkerRegistered, handle)
      ensures ok ==> db.tables == old(db.tables).(workers :=
        old(db.tables.workers)[handle := Worker(role, now, now, Live)])
    {
      ok := db.WriteEventThenRow(NO_RUN, WorkerRegistered, handle, t => InsertWorker(t, handle, role, now));
    }

    method Heartbeat(handle: Id, now: int) returns (ok: bool)
      modifies db
      ensures db.Current() == Beat(old(db.Current()), handle, now)
      ensures ok <==> old(handle in db.tables.workers && db.tables.workers[handle].state != Evicted)
      ensures !ok ==> db.Current() == old(db.Current())
      ensures ok ==> db.log == Appended(old(db.log), NO_RUN, WorkerHeartbeat, handle)
      ensures ok ==> db.tables == old(db.tables).(workers := old(db.tables.workers)[handle :=
        old(db.tables.workers[handle]).(heartbeat := now, state := Live)])
    {
      ok := db.WriteEventThenRow(NO_RUN, WorkerHeartbeat, handle, t => BeatRow(t, handle, now));
    }

    method Deregister(handle: Id) returns (ok: bool)
      modifies db
      ensures db.Current() == Leave(old(db.Current()), handle)
      ensures ok <==> old(handle in db.tables.workers && db.tables.workers[handle].state != Evicted)
      ensures !ok ==> db.Current() == old(db.Current())
      ensures ok ==> db.log == Appended(old(db.log), NO_RUN, WorkerDeregistered, handle)
      ensures ok ==> db.tables == old(db.tables).(workers := old(db.tables.workers)[handle :=
        old(db.tables.workers[handle]).(state := Evicted)])
    {
      ok := db.WriteEventThenRow(NO_RUN, WorkerDeregistered, handle, t => LeaveRow(t, handle));
    }

    /** Live workers of the role, oldest registration first. */
    method LiveWorkersForRole(role: string) returns (rows: seq<Id>)
      ensures Lists(rows, LiveInRole(db.tables, role))
      ensures OldestFirst(db.tables, rows)
      ensures forall h :: h in rows <==>
        h in db.tables.workers && db.tables.workers[h].role == role && db.tables.workers[h].state == Live
    {
      var t := db.tables;
      var left := LiveInRole(t, role);
      rows := [];
      while left != {}
        invariant left <= LiveInRole(t, role)
        invariant Lists(rows, LiveInRole(t, role) - left)
        invariant OldestFirst(t, rows)
        invariant forall i, h :: 0 <= i < |rows| && h in left ==>
          t.workers[rows[i]].registeredAt <= t.workers[h].registeredAt
        decreases |left|
      {
        var next := EarliestOf(t, left);
        assert next !in rows;
        left := left - {next};
        rows := rows + [next];
      }
      assert LiveInRole(t, role) - left == LiveInRole(t, role);
    }

    /** Marks by query, then by a bulk update that asks the same question again. */
    method MarkStale(cutoff: int) returns (handles: seq<Id>)
      modifies db
      ensures Lists(handles, old(SilentLive(db.tables, cutoff)))
      ensures db.Current() == Age(old(db.Current()), cutoff)
      ensures db.log == old(db.log) && db.tables.workers.Keys == old(db.tables.workers.Keys)
      ensures forall h :: h in db.tables.workers ==> (
        db.tables.workers[h] == if h in handles then old(db.tables.workers[h]).(state := Stale)
          else old(db.tables.workers[h]))
      ensures forall h :: h in db.tables.workers ==> (
        h in handles <==> old(db.tables.workers[h]).state == Live && old(db.tables.workers[h]).heartbeat < cutoff)
    {
      handles := Listing(SilentLive(db.tables, cutoff));
      if |handles| == 0 {
        forall h | h in db.tables.workers
          ensures Aged(db.tables.workers[h], cutoff) == db.tables.workers[h]
        {
          assert h !in handles;
        }
        assert AgeRows(db.tables, cutoff).workers == db.tables.workers;
        return;
      }
      db.tables := AgeRows(db.tables, cutoff);
    }

    /** With nobody in between, every silent stale worker and nobody else is evicted. */
    method MarkEvicted(cutoff: int) returns (evicted: seq<Id>)
      modifies db
      ensures Lists(evicted, old(SilentStale(db.tables, cutoff)))
      ensures db.Current() == EvictEach(old(db.Current()), evicted)
      ensures db.tables.workers.Keys == old(db.tables.workers.Keys)
      ensures forall h :: h in db.tables.workers ==> (
        db.tables.workers[h] == if h in evicted then old(db.tables.workers[h]).(state := Evicted)
          else old(db.tables.workers[h]))
      ensures forall h :: h in db.tables.workers ==> (
        h in evicted <==> old(db.tables.workers[h]).state == Stale && old(db.tables.workers[h]).heartbeat < cutoff)
    {
      ghost var before := db.Current();
      var handles := Listing(SilentStale(db.tables, cutoff));
      evicted := [];
      for k := 0 to |handles|
        invariant evicted == handles[..k]
        invariant db.Current() == EvictEach(before, evicted)
      {
        EvictEachMeaning(before, evicted);
        assert handles[k] in handles && handles[k] !in evicted;
        var ok := db.WriteEventThenRow(NO_RUN, WorkerDeregistered, handles[k], t => EvictRow(t, handles[k]));
        if ok {
          evicted := evicted + [handles[k]];
          assert evicted[..k] == handles[..k];
        }
      }
      EvictEachMeaning(before, evicted);
      assert forall h :: h in evicted ==> h in SilentStale(before.tables, cutoff);
    }
  }

  function EvictEach(s: State, handles: seq<Id>): State {
    if handles == [] then s else Evict(EvictEach(s, handles[..|handles| - 1]), handles[|handles| - 1])
  }

  function Retired(w: Worker): Worker {
    if w.state == Stale then w.(state := Evicted) else w
  }

  lemma {:induction false} EvictEachMeaning(s: State, handles: seq<Id>)
    ensures var after := EvictEach(s, handles);
      && after.tables == s.tables.(workers := after.tables.workers)
      && after.tables.workers.Keys == s.tables.workers.Keys
      && (forall h :: h in s.tables.workers ==>
            after.tables.workers[h] == if h in handles then Retired(s.tables.workers[h]) else s.tables.workers[h])
  {
    hide Appended;
    if handles != [] {
      var front := handles[..|handles| - 1];
      EvictEachMeaning(s, front);
      assert forall h :: h in handles <==> h in front || h == handles[|handles| - 1];
    }
  }

  function LiveInRole(t: Tables, role: string): set<Id> {
    set h | h in t.workers && t.workers[h].role == role && t.workers[h].state == Live
  }

  method EarliestOf(t: Tables, handles: set<Id>) returns (first: Id)
    requires handles != {} && handles <= t.workers.Keys
    ensures first in handles
    ensures forall h :: h in handles ==> t.workers[first].registeredAt <= t.workers[h].registeredAt
  {
    var rows := Listing(handles);
    first :| first in handles;
    for k := 0 to |rows|
      invariant first in handles
      invariant forall j :: 0 <= j < k ==> (
        rows[j] in handles && t.workers[first].registeredAt <= t.workers[rows[j]].registeredAt)
    {
      assert rows[k] in rows;
      if t.workers[rows[k]].registeredAt < t.workers[first].registeredAt {
        first := rows[k];
      }
    }
    assert forall h :: h in handles ==> h in rows;
  }

  ghost predicate OldestFirst(t: Tables, rows: seq<Id>) {
    && (forall i :: 0 <= i < |rows| ==> rows[i] in t.workers)
    && (forall i, j :: 0 <= i < j < |rows| ==> t.workers[rows[i]].registeredAt <= t.workers[rows[j]].registeredAt)
  }

  // ---- Routing ----

  /** What to run, before anybody is chosen to run it. */
  datatype Template = Template(runId: Id, role: string, work: string)

  datatype RouteResult =
    | ToWorkers(workers: seq<Id>, dispatchIds: seq<Id>)
    | Ephemeral(dispatchId: Id)
    | UnknownConcurrency
    | StoreError

  /** One pending row per handle, in order. */
  function EnqueueEach(s: State, template: Template, ids: seq<Id>, handles: seq<Id>, now: int): State
    requires |ids| == |handles|
  {
    if ids == [] then s
    else
      var n := |ids| - 1;
      Enqueue(EnqueueEach(s, template, ids[..n], handles[..n], now), ids[n], template.runId, template.role,
              template.work, handles[n], now)
  }

  function Target(handle: Id): Option<Id> {
    if handle == "" then None else Some(handle)
  }

  function FreshRow(template: Template, handle: Id, now: int): Dispatch {
    Dispatch(template.runId, template.role, template.work, Pending, Target(handle), None, None, now)
  }

  ghost predicate Fresh(t: Tables, ids: seq<Id>) {
    && (forall i :: 0 <= i < |ids| ==> ids[i] !in t.dispatches)
    && (forall i, j :: 0 <= i < j < |ids| ==> ids[i] != ids[j])
  }

  lemma EnqueueMeaning(s: State, template: Template, id: Id, handle: Id, now: int)
    requires id !in s.tables.dispatches && template.runId in s.tables.runs
    ensures Enqueue(s, id, template.runId, template.role, template.work, handle, now).tables
         == s.tables.(dispatches := s.tables.dispatches[id := FreshRow(template, handle, now)])
  {
    hide Appended;
  }

  lemma {:induction false} EnqueueEachMeaning(s: State, template: Template, ids: seq<Id>, handles: seq<Id>, now: int)
    requires |ids| == |handles| && Fresh(s.tables, ids) && template.runId in s.tables.runs
    ensures var after := EnqueueEach(s, template, ids, handles, now);
      && after.tables == s.tables.(dispatches := after.tables.dispatches)
      && (forall id :: id in after.tables.dispatches <==> id in s.tables.dispatches || id in ids)
      && (forall id :: id in s.tables.dispatches ==> after.tables.dispatches[id] == s.tables.dispatches[id])
      && (forall k :: 0 <= k < |ids| ==> after.tables.dispatches[ids[k]] == FreshRow(template, handles[k], now))
  {
    hide Enqueue, FreshRow;
    if ids != [] {
      var n := |ids| - 1;
      EnqueueEachMeaning(s, template, ids[..n], handles[..n], now);
      var before := EnqueueEach(s, template, ids[..n], handles[..n], now);
      assert ids[n] !in ids[..n];
      EnqueueMeaning(before, template, ids[n], handles[n], now);
      assert forall id :: id in ids <==> id in ids[..n] || id == ids[n];
      assert forall k :: 0 <= k < n ==> ids[k] == ids[..n][k] && handles[k] == handles[..n][k];
    }
  }

  class DispatchRouter {
    const db: Database
    const workers: WorkerStore
    const dispatch: DispatchStore

    constructor (workers: WorkerStore, dispatch: DispatchStore)
      requires workers.db == dispatch.db
      ensures Valid() && this.workers == workers && this.dispatch == dispatch
    {
      this.db, this.workers, this.dispatch := workers.db, workers, dispatch;
    }

    predicate Valid() { workers.db == db && dispatch.db == db }

    /** One row for the oldest live worker, one per live worker, or one for whoever comes. */
    method Route(template: Template, concurrency: string, ids: seq<Id>, now: int) returns (result: RouteResult)
      requires Valid() && Fresh(db.tables, ids)
      requires |ids| > 0 && |ids| >= |LiveInRole(db.tables, template.role)|
      modifies db
      ensures result.UnknownConcurrency? <==> concurrency !in ["single", "", "many"]
      ensures result.StoreError? <==> !result.UnknownConcurrency? && old(template.runId !in db.tables.runs)
      ensures result.UnknownConcurrency? || result.StoreError? ==> db.Current() == old(db.Current())
      ensures result.Ephemeral? ==> old(LiveInRole(db.tables, template.role)) == {}
      ensures result.Ephemeral? ==>
        db.Current() == EnqueueEach(old(db.Current()), template, [result.dispatchId], [""], now)
      ensures result.ToWorkers? ==> old(LiveInRole(db.tables, template.role)) != {}
      ensures result.ToWorkers? ==> result.dispatchIds <= ids && |result.dispatchIds| == |result.workers|
      ensures result.ToWorkers? ==>
        db.Current() == EnqueueEach(old(db.Current()), template, result.dispatchIds, result.workers, now)
      ensures result.ToWorkers? && concurrency == "many" ==>
        Lists(result.workers, old(LiveInRole(db.tables, template.role)))
      ensures result.ToWorkers? && concurrency != "many" ==>
        |result.workers| == 1 && old(IsOldestLive(db.tables, template.role, result.workers[0]))
      ensures result.Ephemeral? ==> forall h :: h in old(db.tables.workers) ==>
        old(db.tables.workers[h]).role != template.role || old(db.tables.workers[h]).state != Live
      ensures result.ToWorkers? ==> forall h :: h in result.workers ==> (
        && h in old(db.tables.workers)
        && old(db.tables.workers[h]).role == template.role && old(db.tables.workers[h]).state == Live)
    {
      hide Lists, EnqueueEach, OldestFirst;
      if concurrency !in ["single", "", "many"] {
        return UnknownConcurrency;
      }
      var live := workers.LiveWorkersForRole(template.role);
      ListsSize(live, LiveInRole(db.tables, template.role));
      FirstIsOldest(db.tables, template.role, live);
      if |live| == 0 {
        assert ids[..1] == [ids[0]];
        var sent := EnqueueFor(template, ids[..1], [""], now);
        return if sent then Ephemeral(ids[0]) else StoreError;
      }
      var targets := if concurrency == "many" then live else live[..1];
      var sent := EnqueueFor(template, ids[..|targets|], targets, now);
      return if sent then ToWorkers(targets, ids[..|targets|]) else StoreError;
    }

    method EnqueueFor(template: Template, ids: seq<Id>, handles: seq<Id>, now: int) returns (ok: bool)
      requires Valid() && |ids| == |handles| > 0 && Fresh(db.tables, ids)
      modifies db
      ensures ok <==> old(template.runId in db.tables.runs)
      ensures !ok ==> db.Current() == old(db.Current())
      ensures ok ==> db.Current() == EnqueueEach(old(db.Current()), template, ids, handles, now)
    {
      ghost var before := db.Current();
      for k := 0 to |ids|
        invariant k > 0 ==> template.runId in before.tables.runs
        invariant db.Current() == EnqueueEach(before, template, ids[..k], handles[..k], now)
        invariant template.runId in before.tables.runs ==> template.runId in db.tables.runs
        invariant forall i :: k <= i < |ids| ==> ids[i] !in db.tables.dispatches
      {
        hide Appended;
        assert ids[..k + 1][..k] == ids[..k] && handles[..k + 1][..k] == handles[..k];
        var sent := dispatch.EnqueueDispatch(ids[k], template.runId, template.role, template.work, handles[k], now);
        if !sent {
          return false;
        }
      }
      assert ids[..|ids|] == ids && handles[..|ids|] == handles;
      return true;
    }
  }

  ghost predicate IsOldestLive(t: Tables, role: string, handle: Id) {
    && handle in LiveInRole(t, role)
    && forall other :: other in LiveInRole(t, role) ==> t.workers[handle].registeredAt <= t.workers[other].registeredAt
  }

  lemma FirstIsOldest(t: Tables, role: string, rows: seq<Id>)
    requires Lists(rows, LiveInRole(t, role)) && OldestFirst(t, rows)
    ensures rows == [] <==> LiveInRole(t, role) == {}
    ensures rows != [] ==> IsOldestLive(t, role, rows[0])
  {
    if rows == [] {
      assert forall h :: h in LiveInRole(t, role) ==> h in rows;
    } else {
      assert rows[0] in rows;
      forall other | other in LiveInRole(t, role)
        ensures t.workers[rows[0]].registeredAt <= t.workers[other].registeredAt
      {
        assert other in rows;
      }
    }
  }

  lemma {:induction false} ListsSize(rows: seq<Id>, keys: set<Id>)
    requires Lists(rows, keys)
    ensures |rows| == |keys|
    decreases |rows|
  {
    if rows == [] {
      assert keys == {};
    } else {
      var n := |rows| - 1;
      assert rows[n] in rows;
      assert forall id :: id in rows[..n] <==> id in keys - {rows[n]};
      ListsSize(rows[..n], keys - {rows[n]});
    }
  }

  /** Work aimed at a worker is invisible to everybody else; untargeted work is visible to all callers of the role. */
  lemma OnlyTheTarget(s: State, template: Template, ids: seq<Id>, handles: seq<Id>, now: int, k: nat, caller: Id)
    requires |ids| == |handles| && k < |ids| && Fresh(s.tables, ids) && template.runId in s.tables.runs
    ensures Eligible(EnqueueEach(s, template, ids, handles, now).tables, template.role, caller, ids[k]) <==>
      handles[k] == "" || handles[k] == caller
  {
    EnqueueEachMeaning(s, template, ids, handles, now);
    assert ids[k] in ids;
  }
}
