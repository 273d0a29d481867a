/** The lease protocol under every interleaving. Each transaction is one atomic step; the loops that select first and
    then write row by row (lease expiry, and the watchdog's tick) keep their selection in local state, and anybody may
    step in between. */
module Lease {
  import opened Options
  import opened Store
  import opened Dispatches
  import opened Workers

  // ---- Transactions ----

  datatype Tx =
    | TxNone
    | TxEnqueue(id: Id, runId: Id, role: string, work: string, handle: Id)
    | TxClaim(role: string, handle: Id, id: Id)
    | TxComplete(id: Id)
    | TxRelease(id: Id)
    | TxUntarget(handle: Id)
    | TxRegister(handle: Id, role: string)
    | TxBeat(handle: Id)
    | TxLeave(handle: Id)
    | TxEvict(handle: Id)
    | TxAge(cutoff: int)
    | TxOther(runId: Id, kind: Kind, subject: Id, runs: map<Id, Run>, jobs: map<Id, Job>, costs: seq<CostRow>)

  /** Claims take an oldest eligible row; the rest of the system writes events of its own about its own tables. */
  ghost predicate Legal(s: State, tx: Tx) {
    match tx
    case TxClaim(role, handle, id) => Oldest(s.tables, role, handle, id)
    case TxOther(_, kind, _, _, _, _) => !AboutDispatch(kind) && !AboutWorker(kind)
    case _ => true
  }

  function Apply(s: State, tx: Tx, now: int): State {
    match tx
    case TxNone => s
    case TxEnqueue(id, runId, role, work, handle) => Enqueue(s, id, runId, role, work, handle, now)
    case TxClaim(role, handle, id) => if id in s.tables.dispatches then Claim(s, id, now) else s
    case TxComplete(id) => if id in s.tables.dispatches then Complete(s, id, now) else s
    case TxRelease(id) => Release(s, id)
    case TxUntarget(handle) => Untarget(s, handle)
    case TxRegister(handle, role) => Register(s, handle, role, now)
    case TxBeat(handle) => Beat(s, handle, now)
    case TxLeave(handle) => Leave(s, handle)
    case TxEvict(handle) => Evict(s, handle)
    case TxAge(cutoff) => Age(s, cutoff)
    case TxOther(runId, kind, subject, runs, jobs, costs) =>
      Commit(s, runId, kind, subject, (t: Tables) => Some(t.(runs := runs, jobs := jobs, costs := costs)))
  }

  predicate TouchesWorkers(tx: Tx) {
    tx.TxRegister? || tx.TxBeat? || tx.TxLeave? || tx.TxEvict? || tx.TxAge?
  }

  predicate TouchesDispatches(tx: Tx) {
    tx.TxEnqueue? || tx.TxClaim? || tx.TxComplete? || tx.TxRelease? || tx.TxUntarget?
  }

  /** A transaction logs at most one event, about its own kind of subject, and leaves the other table alone. */
  lemma Footprint(s: State, tx: Tx, now: int)
    requires Legal(s, tx)
    ensures var after := Apply(s, tx, now);
      && (!TouchesWorkers(tx) ==> after.tables.workers == s.tables.workers)
      && (!TouchesDispatches(tx) ==> after.tables.dispatches == s.tables.dispatches)
      && (after.log == s.log || exists runId, kind, subject ::
            && after.log == Appended(s.log, runId, kind, subject)
            && (!TouchesWorkers(tx) ==> !AboutWorker(kind)) && (!TouchesDispatches(tx) ==> !AboutDispatch(kind)))
  {
    hide Appended, Oldest;
  }

  lemma LogKept(s: State, tx: Tx, now: int)
    requires Legal(s, tx) && WellSequenced(s.log)
    ensures WellSequenced(Apply(s, tx, now).log) && s.log <= Apply(s, tx, now).log
  {
    Footprint(s, tx, now);
    var after := Apply(s, tx, now);
    LogStep(s.log, after.log);
  }

  lemma LogStep(log: seq<Event>, after: seq<Event>)
    requires WellSequenced(log)
    requires after == log || exists runId, kind, subject :: after == Appended(log, runId, kind, subject)
    ensures WellSequenced(after) && log <= after
  {
    if after != log {
      var runId, kind, subject :| after == Appended(log, runId, kind, subject);
      AppendedSequenced(log, runId, kind, subject);
    }
  }

  lemma QueueKept(s: State, tx: Tx, now: int)
    requires Legal(s, tx) && TableIsReplay(s)
    ensures TableIsReplay(Apply(s, tx, now))
  {
    hide TableIsReplay, Enqueue, Claim, Complete, Release, Untarget, Commit;
    match tx {
      case TxEnqueue(id, runId, role, work, handle) => EnqueueKeeps(s, id, runId, role, work, handle, now);
      case TxClaim(role, handle, id) => ClaimKeeps(s, id, now);
      case TxComplete(id) => if id in s.tables.dispatches { CompleteKeeps(s, id, now); }
      case TxRelease(id) => ReleaseKeeps(s, id);
      case TxUntarget(handle) => UntargetKeeps(s, handle);
      case _ =>
        Footprint(s, tx, now);
        QueueUntouched(s, Apply(s, tx, now));
    }
  }

  lemma QueueUntouched(s: State, after: State)
    requires TableIsReplay(s) && after.tables.dispatches == s.tables.dispatches
    requires after.log == s.log || exists runId, kind, subject ::
      after.log == Appended(s.log, runId, kind, subject) && !AboutDispatch(kind)
    ensures TableIsReplay(after)
  {
    hide Replay, KindsOf, Appended;
    forall id
      ensures Replay(History(after.log, id)) == PhaseOf(after.tables, id)
    {
      assert Replay(History(s.log, id)) == PhaseOf(s.tables, id) == PhaseOf(after.tables, id);
      if after.log != s.log {
        var runId, kind, subject :| after.log == Appended(s.log, runId, kind, subject) && !AboutDispatch(kind);
        KindsOfMore(s.log, runId, kind, subject, AboutDispatch, id);
        assert History(after.log, id) == History(s.log, id);
      }
    }
  }

  lemma RegistryKept(s: State, tx: Tx, now: int)
    requires Legal(s, tx) && RegistryIsReplay(s)
    ensures RegistryIsReplay(Apply(s, tx, now))
  {
    hide RegistryIsReplay, Register, Beat, Leave, Evict, Age, Commit;
    match tx {
      case TxRegister(handle, role) => RegisterKeeps(s, handle, role, now);
      case TxBeat(handle) => BeatKeeps(s, handle, now);
      case TxLeave(handle) => LeaveKeeps(s, handle);
      case TxEvict(handle) => LeaveKeeps(s, handle);
      case TxAge(cutoff) => AgeKeeps(s, cutoff);
      case _ =>
        Footprint(s, tx, now);
        RegistryUntouched(s, Apply(s, tx, now));
    }
  }

  lemma RegistryUntouched(s: State, after: State)
    requires RegistryIsReplay(s) && after.tables.workers == s.tables.workers
    requires after.log == s.log || exists runId, kind, subject ::
      after.log == Appended(s.log, runId, kind, subject) && !AboutWorker(kind)
    ensures RegistryIsReplay(after)
  {
    hide Follow, KindsOf, Appended;
    forall handle
      ensures Follow(Career(after.log, handle)) == StandingOf(after.tables, handle)
    {
      assert Follow(Career(s.log, handle)) == StandingOf(s.tables, handle) == StandingOf(after.tables, handle);
      if after.log != s.log {
        var runId, kind, subject :| after.log == Appended(s.log, runId, kind, subject) && !AboutWorker(kind);
        KindsOfMore(s.log, runId, kind, subject, AboutWorker, handle);
        assert Career(after.log, handle) == Career(s.log, handle);
      }
    }
  }

  // ---- Worlds and steps ----

  /** Where a multi-transaction loop has got to. An expiry loop remembers what it was asked and when; a watchdog is
      ageing, selecting, evicting, or requeueing what it evicted. */
  datatype Actor =
    | Expiring(cutoff: int, at: int, since: seq<Event>, todo: seq<Id>)
    | Ageing(staleCutoff: int, evictCutoff: int, found: bool)
    | Selecting(cutoff: int)
    | Evicting(cutoff: int, todo: seq<Id>, evicted: seq<Id>)
    | Requeueing(evicted: seq<Id>)
    | Releasing(handle: Id, todo: seq<Id>, evicted: seq<Id>)

  /** The store, the clock, the loops under way, and two facts nobody stores: who holds each lease, and which workers
      left of their own accord. */
  datatype World = World(s: State, now: int, actors: map<nat, Actor>, holders: map<Id, Id>, left: set<Id>)

  datatype Step =
    | Elapse(seconds: nat)
    | Request(tx: Tx)
    | StartExpire(a: nat, timeout: int, ids: seq<Id>)
    | ExpireNext(a: nat)
    | EndExpire(a: nat)
    | StartTick(a: nat, staleAfter: int, evictAfter: int)
    | AgeNow(a: nat)
    | StartEvict(a: nat, ids: seq<Id>)
    | EvictNext(a: nat)
    | EndEvict(a: nat)
    | StartRequeue(a: nat, ids: seq<Id>)
    | ReleaseNext(a: nat)
    | UntargetNow(a: nat)
    | EndTick(a: nat)

  predicate ByClient(tx: Tx) {
    tx.TxEnqueue? || tx.TxClaim? || tx.TxComplete? || tx.TxRegister? || tx.TxBeat? || tx.TxLeave? || tx.TxOther?
  }

  ghost predicate Can(w: World, step: Step) {
    var t := w.s.tables;
    match step
    case Elapse(_) => true
    case Request(tx) => ByClient(tx) && Legal(w.s, tx)
    case StartExpire(a, timeout, ids) => a !in w.actors && Lists(ids, Overdue(t, w.now - timeout))
    case ExpireNext(a) => a in w.actors && w.actors[a].Expiring? && w.actors[a].todo != []
    case EndExpire(a) => a in w.actors && w.actors[a].Expiring? && w.actors[a].todo == []
    case StartTick(a, _, _) => a !in w.actors
    case AgeNow(a) => a in w.actors && w.actors[a].Ageing?
    case StartEvict(a, ids) => a in w.actors && w.actors[a].Selecting? && Lists(ids, SilentStale(t, w.actors[a].cutoff))
    case EvictNext(a) => a in w.actors && w.actors[a].Evicting? && w.actors[a].todo != []
    case EndEvict(a) => a in w.actors && w.actors[a].Evicting? && w.actors[a].todo == []
    case StartRequeue(a, ids) => (
      && a in w.actors && w.actors[a].Requeueing? && w.actors[a].evicted != []
      && Lists(ids, LeasedTo(t, w.actors[a].evicted[0])))
    case ReleaseNext(a) => a in w.actors && w.actors[a].Releasing? && w.actors[a].todo != []
    case UntargetNow(a) => a in w.actors && w.actors[a].Releasing? && w.actors[a].todo == []
    case EndTick(a) => a in w.actors && w.actors[a].Requeueing? && w.actors[a].evicted == []
  }

  ghost function TxOf(w: World, step: Step): Tx
    requires Can(w, step)
  {
    match step
    case Request(tx) => tx
    case ExpireNext(a) => TxRelease(w.actors[a].todo[0])
    case AgeNow(a) => if w.actors[a].found then TxAge(w.actors[a].staleCutoff) else TxNone
    case EvictNext(a) => TxEvict(w.actors[a].todo[0])
    case ReleaseNext(a) => TxRelease(w.actors[a].todo[0])
    case UntargetNow(a) => TxUntarget(w.actors[a].handle)
    case _ => TxNone
  }

  ghost function ActorsAfter(w: World, step: Step): map<nat, Actor>
    requires Can(w, step)
  {
    var t := w.s.tables;
    match step
    case Elapse(_) => w.actors
    case Request(_) => w.actors
    case StartExpire(a, timeout, ids) => w.actors[a := Expiring(w.now - timeout, w.now, w.s.log, ids)]
    case ExpireNext(a) =>
      var x := w.actors[a];
      w.actors[a := Expiring(x.cutoff, x.at, x.since, x.todo[1..])]
    case EndExpire(a) => w.actors - {a}
    case StartTick(a, staleAfter, evictAfter) =>
      w.actors[a := Ageing(w.now - staleAfter, w.now - evictAfter, SilentLive(t, w.now - staleAfter) != {})]
    case AgeNow(a) => w.actors[a := Selecting(w.actors[a].evictCutoff)]
    case StartEvict(a, ids) => w.actors[a := Evicting(w.actors[a].cutoff, ids, [])]
    case EvictNext(a) =>
      var x := w.actors[a];
      var done := if EvictRow(t, x.todo[0]).Some? then x.evicted + [x.todo[0]] else x.evicted;
      w.actors[a := Evicting(x.cutoff, x.todo[1..], done)]
    case EndEvict(a) => w.actors[a := Requeueing(w.actors[a].evicted)]
    case StartRequeue(a, ids) => w.actors[a := Releasing(w.actors[a].evicted[0], ids, w.actors[a].evicted[1..])]
    case ReleaseNext(a) =>
      var x := w.actors[a];
      w.actors[a := Releasing(x.handle, x.todo[1..], x.evicted)]
    case UntargetNow(a) => w.actors[a := Requeueing(w.actors[a].evicted)]
    case EndTick(a) => w.actors - {a}
  }

  ghost function After(w: World, step: Step): World
    requires Can(w, step)
  {
    var tx := TxOf(w, step);
    World(Apply(w.s, tx, w.now),
          if step.Elapse? then w.now + step.seconds else w.now,
          ActorsAfter(w, step),
          if tx.TxClaim? then w.holders[tx.id := tx.handle] else w.holders,
          if tx.TxLeave? && LeaveRow(w.s.tables, tx.handle).Some? then w.left + {tx.handle} else w.left)
  }

  function Start(now: int): World {
    World(State([], Tables(map[], map[], map[], map[], [])), now, map[], map[], {})
  }

  ghost predicate Moves(w: World, step: Step, next: World) {
    Can(w, step) && next == After(w, step)
  }

  /** A run from an empty store, whoever steps when. */
  ghost predicate Trace(ws: seq<World>, steps: seq<Step>) {
    && |ws| == |steps| + 1
    && ws[0] == Start(ws[0].now)
    && forall k :: 0 <= k < |steps| ==> Moves(ws[k], steps[k], ws[k + 1])
  }

  // ---- What every step keeps ----

  ghost predicate RowsSane(t: Tables) {
    forall id :: id in t.dispatches ==> RowSane(t.dispatches[id])
  }

  predicate RowSane(d: Dispatch) {
    && (d.state == Pending <==> d.leasedAt.None?)
    && (d.state == Completed <==> d.completedAt.Some?)
    && d.handle != Some("")
  }

  /** A lease on targeted work is held by its target. */
  ghost predicate HoldersRight(t: Tables, holders: map<Id, Id>) {
    forall id :: id in t.dispatches && t.dispatches[id].state == Leased ==>
      id in holders && (t.dispatches[id].handle.Some? ==> t.dispatches[id].handle.value == holders[id])
  }

  /** As long as nothing was logged about a selected dispatch it is still the old lease; afterwards any lease on it
      is one taken since the selection. */
  ghost predicate SelectionRight(s: State, x: Actor, id: Id)
    requires x.Expiring?
  {
    && id in s.tables.dispatches
    && |History(x.since, id)| <= |History(s.log, id)|
    && var d := s.tables.dispatches[id];
       if |History(s.log, id)| == |History(x.since, id)| then
         d.state == Leased && d.leasedAt.Some? && d.leasedAt.value <= x.cutoff
       else
         d.state == Leased ==> d.leasedAt.Some? && d.leasedAt.value >= x.at
  }

  ghost predicate SelectionsRight(w: World) {
    forall a :: a in w.actors && w.actors[a].Expiring? ==>
      w.actors[a].at <= w.now && forall id :: id in w.actors[a].todo ==> SelectionRight(w.s, w.actors[a], id)
  }

  function EvictedBy(x: Actor): seq<Id> {
    match x
    case Evicting(_, _, evicted) => evicted
    case Requeueing(evicted) => evicted
    case Releasing(handle, _, evicted) => [handle] + evicted
    case _ => []
  }

  /** Workers that left are out for good, and no watchdog has them on its list. */
  ghost predicate LeaversRight(w: World) {
    && (forall h :: h in w.left ==> h in w.s.tables.workers && w.s.tables.workers[h].state == Evicted)
    && (forall a, h :: a in w.actors && h in EvictedBy(w.actors[a]) ==>
          h in w.s.tables.workers && w.s.tables.workers[h].state == Evicted && h !in w.left)
  }

  ghost predicate Inv(w: World) {
    && WellSequenced(w.s.log)
    && TableIsReplay(w.s)
    && RegistryIsReplay(w.s)
    && RowsSane(w.s.tables)
    && HoldersRight(w.s.tables, w.holders)
    && SelectionsRight(w)
    && LeaversRight(w)
  }

  lemma RowsKept(s: State, tx: Tx, now: int)
    requires Legal(s, tx) && RowsSane(s.tables)
    ensures RowsSane(Apply(s, tx, now).tables)
  {
    hide Appended, Oldest;
  }

  lemma HoldersKept(s: State, tx: Tx, now: int, holders: map<Id, Id>)
    requires Legal(s, tx) && HoldersRight(s.tables, holders) && RowsSane(s.tables)
    ensures HoldersRight(Apply(s, tx, now).tables, if tx.TxClaim? then holders[tx.id := tx.handle] else holders)
  {
    hide Appended, RowsSane;
  }

  lemma SelectionKept(s: State, tx: Tx, now: int, x: Actor, id: Id)
    requires Legal(s, tx) && x.Expiring? && x.at <= now && RowsSane(s.tables) && SelectionRight(s, x, id)
    ensures SelectionRight(Apply(s, tx, now), x, id)
  {
    hide KindsOf, Appended, Oldest;
    HistoryGrows(s, tx, now, id);
    var after := Apply(s, tx, now);
    assert RowSane(s.tables.dispatches[id]);
  }

  /** Whatever changes a dispatch other than its target logs an event about it. */
  lemma HistoryGrows(s: State, tx: Tx, now: int, id: Id)
    requires Legal(s, tx) && id in s.tables.dispatches
    ensures var after := Apply(s, tx, now);
      && id in after.tables.dispatches
      && |History(s.log, id)| <= |History(after.log, id)|
      && (|History(s.log, id)| == |History(after.log, id)| ==>
            after.tables.dispatches[id].(handle := None) == s.tables.dispatches[id].(handle := None))
      && (|History(s.log, id)| < |History(after.log, id)| && after.tables.dispatches[id].state == Leased ==>
            after.tables.dispatches[id].leasedAt == Some(now))
  {
    hide KindsOf, Appended, Oldest;
    forall runId, kind, subject
      ensures History(Appended(s.log, runId, kind, subject), id)
           == History(s.log, id) + if AboutDispatch(kind) && subject == id then [kind] else []
    {
      KindsOfMore(s.log, runId, kind, subject, AboutDispatch, id);
    }
  }

  lemma EvictedStays(s: State, tx: Tx, now: int, handle: Id)
    requires Legal(s, tx) && handle in s.tables.workers && s.tables.workers[handle].state == Evicted
    ensures var after := Apply(s, tx, now);
      handle in after.tables.workers && after.tables.workers[handle].state == Evicted
  {
    hide Appended, Oldest;
  }

  lemma SelectionsKept(w: World, step: Step)
    requires Can(w, step) && Legal(w.s, TxOf(w, step)) && RowsSane(w.s.tables) && SelectionsRight(w)
    ensures SelectionsRight(After(w, step))
  {
    hide Apply, SelectionRight, Legal, RowsSane;
    var next := After(w, step);
    var tx := TxOf(w, step);
    forall a | a in next.actors && next.actors[a].Expiring?
      ensures next.actors[a].at <= next.now
      ensures forall id :: id in next.actors[a].todo ==> SelectionRight(next.s, next.actors[a], id)
    {
      var x := next.actors[a];
      forall id | id in x.todo
        ensures SelectionRight(next.s, x, id)
      {
        if step.StartExpire? && a == step.a {
          FreshSelection(w, step, id);
        } else {
          var was := w.actors[a];
          assert was.Expiring? && id in was.todo;
          SelectionKept(w.s, tx, w.now, was, id);
          SelectionForgets(next.s, was, x, id);
        }
      }
    }
  }

  lemma FreshSelection(w: World, step: Step, id: Id)
    requires Can(w, step) && step.StartExpire? && id in step.ids
    ensures SelectionRight(After(w, step).s, After(w, step).actors[step.a], id)
  {
  }

  lemma SelectionForgets(s: State, x: Actor, y: Actor, id: Id)
    requires x.Expiring? && y.Expiring? && x.cutoff == y.cutoff && x.at == y.at && x.since == y.since
    requires SelectionRight(s, x, id)
    ensures SelectionRight(s, y, id)
  {
  }

  lemma LeaversKept(w: World, step: Step)
    requires Can(w, step) && Legal(w.s, TxOf(w, step)) && LeaversRight(w)
    ensures LeaversRight(After(w, step))
  {
    hide Apply, Legal, Lists;
    var next := After(w, step);
    var tx := TxOf(w, step);
    forall h | h in next.left
      ensures h in next.s.tables.workers && next.s.tables.workers[h].state == Evicted
    {
      if h in w.left {
        EvictedStays(w.s, tx, w.now, h);
      } else {
        LeftNow(w.s, h, w.now);
      }
    }
    forall a, h | a in next.actors && h in EvictedBy(next.actors[a])
      ensures h in next.s.tables.workers && next.s.tables.workers[h].state == Evicted && h !in next.left
    {
      if step.EvictNext? && step.a == a && tx.handle == h && EvictRow(w.s.tables, h).Some? {
        EvictedNow(w.s, h, w.now);
      } else {
        assert a in w.actors && h in EvictedBy(w.actors[a]);
        EvictedStays(w.s, tx, w.now, h);
      }
    }
  }

  lemma LeftNow(s: State, h: Id, now: int)
    requires LeaveRow(s.tables, h).Some?
    ensures var t := Apply(s, TxLeave(h), now).tables; h in t.workers && t.workers[h].state == Evicted
  {
  }

  lemma EvictedNow(s: State, h: Id, now: int)
    requires EvictRow(s.tables, h).Some?
    ensures var t := Apply(s, TxEvict(h), now).tables; h in t.workers && t.workers[h].state == Evicted
  {
  }

  lemma InvKept(w: World, step: Step)
    requires Inv(w) && Can(w, step)
    ensures Inv(After(w, step))
  {
    hide Apply, TableIsReplay, RegistryIsReplay, WellSequenced, RowsSane, HoldersRight, SelectionsRight, LeaversRight;
    var tx := TxOf(w, step);
    TxIsLegal(w, step);
    LogKept(w.s, tx, w.now);
    QueueKept(w.s, tx, w.now);
    RegistryKept(w.s, tx, w.now);
    RowsKept(w.s, tx, w.now);
    HoldersKept(w.s, tx, w.now, w.holders);
    SelectionsKept(w, step);
    LeaversKept(w, step);
  }

  lemma TxIsLegal(w: World, step: Step)
    requires Can(w, step)
    ensures Legal(w.s, TxOf(w, step))
  {
    hide Lists, Oldest;
  }

  /** The invariant holds in every world of every run. */
  lemma {:induction false} AlwaysInv(ws: seq<World>, steps: seq<Step>, k: nat)
    requires Trace(ws, steps) && k < |ws|
    ensures Inv(ws[k])
  {
    if k == 0 {
      StartInv(ws[0].now);
    } else {
      AlwaysInv(ws, steps, k - 1);
      hide Inv, After, Can;
      assert Moves(ws[k - 1], steps[k - 1], ws[k - 1 + 1]);
      MovesKeep(ws[k - 1], steps[k - 1], ws[k]);
    }
  }

  lemma MovesKeep(w: World, step: Step, next: World)
    requires Inv(w) && Moves(w, step, next)
    ensures Inv(next)
  {
    InvKept(w, step);
  }

  lemma StartInv(now: int)
    ensures Inv(Start(now))
  {
  }

  // ---- What follows for every run ----

  /** A dispatch's row is the replay of its history, and its history is well shaped. */
  lemma EveryHistory(ws: seq<World>, steps: seq<Step>, k: nat, id: Id)
    requires Trace(ws, steps) && k < |ws|
    ensures var s := ws[k].s;
      && WellShaped(History(s.log, id))
      && Replay(History(s.log, id)) == PhaseOf(s.tables, id)
      && (id in s.tables.dispatches <==> DispatchQueued in History(s.log, id))
      && (id in s.tables.dispatches && s.tables.dispatches[id].state == Completed <==>
            DispatchCompleted in History(s.log, id))
  {
    AlwaysInv(ws, steps, k);
    var history := History(ws[k].s.log, id);
    ReplayIsWellShaped(history);
    if history != [] {
      assert history[0] in history;
    }
  }

  /** In every run each run id's events are numbered 1, 2, 3, ... in commit order. */
  lemma EverySequence(ws: seq<World>, steps: seq<Step>, k: nat, runId: Id)
    requires Trace(ws, steps) && k < |ws|
    ensures var events := ForRun(ws[k].s.log, runId);
      forall i :: 0 <= i < |events| ==> events[i].sequence == i + 1
  {
    AlwaysInv(ws, steps, k);
    NumberedInOrder(ws[k].s.log, runId);
  }

  /** Targeted work is held by its target, never by an ephemeral caller. */
  lemma TargetsHoldTheirWork(ws: seq<World>, steps: seq<Step>, k: nat, id: Id)
    requires Trace(ws, steps) && k < |ws|
    requires id in ws[k].s.tables.dispatches && ws[k].s.tables.dispatches[id].state == Leased
    ensures id in ws[k].holders
    ensures ws[k].s.tables.dispatches[id].handle.Some? ==>
      ws[k].s.tables.dispatches[id].handle.value == ws[k].holders[id] != ""
  {
    AlwaysInv(ws, steps, k);
    assert RowSane(ws[k].s.tables.dispatches[id]);
  }

  /** What a transaction does to a dispatch that is leased after it. */
  lemma LeaseStep(s: State, tx: Tx, now: int, id: Id)
    requires Legal(s, tx) && id in Apply(s, tx, now).tables.dispatches
    requires Apply(s, tx, now).tables.dispatches[id].state == Leased
    ensures id in s.tables.dispatches
    ensures var before, after := s.tables.dispatches[id], Apply(s, tx, now).tables.dispatches[id];
      && after.role == before.role
      && if tx.TxClaim? && tx.id == id then (
           && before.state == Pending && before.role == tx.role && after.leasedAt == Some(now)
           && (before.handle.None? || (tx.handle != "" && before.handle == Some(tx.handle)))
           && forall other :: other in s.tables.dispatches ==> (
                var d := s.tables.dispatches[other];
                || d.createdAt >= before.createdAt || d.state != Pending || d.role != tx.role
                || (d.handle.Some? && (tx.handle == "" || d.handle.value != tx.handle))))
         else before.state == Leased && before.leasedAt == after.leasedAt
  {
    hide Appended;
    if tx.TxClaim? && tx.id == id {
      forall other | other in s.tables.dispatches && Eligible(s.tables, tx.role, tx.handle, other)
        ensures s.tables.dispatches[other].createdAt >= s.tables.dispatches[id].createdAt
      {
      }
    }
  }

  /** In every run whoever holds a lease took it by a claim under the dispatch's own role, when the dispatch was pending
      and meant for it, and has held it since. */
  lemma {:induction false} HoldersClaimed(ws: seq<World>, steps: seq<Step>, n: nat, id: Id) returns (k: nat)
    requires Trace(ws, steps) && n < |ws|
    requires id in ws[n].s.tables.dispatches && ws[n].s.tables.dispatches[id].state == Leased
    ensures k < n && id in ws[n].holders && id in ws[k].s.tables.dispatches
    ensures steps[k] == Request(TxClaim(ws[n].s.tables.dispatches[id].role, ws[n].holders[id], id))
    ensures ws[n].s.tables.dispatches[id].leasedAt == Some(ws[k].now)
    ensures var d := ws[k].s.tables.dispatches[id];
      && d.state == Pending && d.role == ws[n].s.tables.dispatches[id].role
      && (d.handle.None? || (ws[n].holders[id] != "" && d.handle == Some(ws[n].holders[id])))
    ensures forall j :: k < j <= n ==>
      id in ws[j].s.tables.dispatches && ws[j].s.tables.dispatches[id].state == Leased
  {
    hide Apply, Legal, ActorsAfter;
    k := n - 1;
    var tx := TxOf(ws[k], steps[k]);
    assert Moves(ws[k], steps[k], ws[k + 1]);
    TxIsLegal(ws[k], steps[k]);
    LeaseStep(ws[k].s, tx, ws[k].now, id);
    if !(tx.TxClaim? && tx.id == id) {
      k := HoldersClaimed(ws, steps, n - 1, id);
    }
  }

  /** A worker is evicted exactly when its departure is logged; the departure is its last event and the only one of
      its kind, so no heartbeat follows it. */
  lemma EvictedIffLogged(ws: seq<World>, steps: seq<Step>, k: nat, handle: Id)
    requires Trace(ws, steps) && k < |ws|
    ensures var t := ws[k].s.tables;
      var career := Career(ws[k].s.log, handle);
      && (handle in t.workers <==> career != [])
      && (handle in t.workers && t.workers[handle].state == Evicted <==> WorkerDeregistered in career)
      && (forall i :: 0 <= i < |career| && career[i] == WorkerDeregistered ==> i == |career| - 1)
  {
    AlwaysInv(ws, steps, k);
    var career := Career(ws[k].s.log, handle);
    CareerShape(career);
    if career != [] {
      assert career[|career| - 1] in career;
    }
  }

  /** A worker that recovered, left or was evicted in the meantime is passed over, and the log does not show it. */
  lemma LostRaceLeavesNoEvent(w: World, a: nat)
    requires Can(w, EvictNext(a))
    requires var h := w.actors[a].todo[0];
      h in w.s.tables.workers ==> w.s.tables.workers[h].state != Stale
    ensures After(w, EvictNext(a)).s == w.s
    ensures After(w, EvictNext(a)).actors[a].evicted == w.actors[a].evicted
  {
  }

  /** An expiry ends a lease it never selected exactly when something was logged about the dispatch in between: the
      guard only asks for some lease. */
  lemma ExpiryOfFreshLease(ws: seq<World>, steps: seq<Step>, k: nat, a: nat)
    requires Trace(ws, steps) && k < |ws| && Can(ws[k], ExpireNext(a))
    requires ws[k].actors[a].cutoff < ws[k].actors[a].at
    ensures var w := ws[k];
      var x := w.actors[a];
      var id := x.todo[0];
      && id in w.s.tables.dispatches
      && (w.s.tables.dispatches[id].state == Leased ==>
            && After(w, ExpireNext(a)).s.tables.dispatches[id].state == Pending
            && w.s.tables.dispatches[id].leasedAt.Some?
            && (w.s.tables.dispatches[id].leasedAt.value > x.cutoff <==> History(w.s.log, id) != History(x.since, id)))
      && (w.s.tables.dispatches[id].state != Leased ==> After(w, ExpireNext(a)).s.tables == w.s.tables)
  {
    AlwaysInv(ws, steps, k);
    var w := ws[k];
    var x := w.actors[a];
    var id := x.todo[0];
    assert id in x.todo;
    assert SelectionRight(w.s, x, id);
    SelectionPrefix(ws, steps, k, a);
    HistoryPrefix(x.since, w.s.log, id);
    hide KindsOf, Inv, Appended;
    if w.s.tables.dispatches[id].state != Leased {
      var t := w.s.tables;
      assert Released(t.dispatches[id]) == t.dispatches[id];
      assert t.dispatches[id := t.dispatches[id]] == t.dispatches;
    }
  }

  lemma {:induction false} SelectionPrefix(ws: seq<World>, steps: seq<Step>, k: nat, a: nat)
    requires Trace(ws, steps) && k < |ws| && a in ws[k].actors && ws[k].actors[a].Expiring?
    ensures ws[k].actors[a].since <= ws[k].s.log
  {
    if k > 0 {
      var w := ws[k - 1];
      assert Moves(w, steps[k - 1], ws[k - 1 + 1]);
      AlwaysInv(ws, steps, k - 1);
      if a in w.actors && w.actors[a].Expiring? {
        SelectionPrefix(ws, steps, k - 1, a);
      }
      SelectionPrefixStep(w, steps[k - 1], ws[k], a);
    }
  }

  lemma SelectionPrefixStep(w: World, step: Step, next: World, a: nat)
    requires Moves(w, step, next) && Inv(w) && a in next.actors && next.actors[a].Expiring?
    requires a in w.actors && w.actors[a].Expiring? ==> w.actors[a].since <= w.s.log
    ensures next.actors[a].since <= next.s.log
  {
    TxIsLegal(w, step);
    LogKept(w.s, TxOf(w, step), w.now);
    hide Apply;
  }

  lemma {:induction false} HistoryPrefix(log: seq<Event>, more: seq<Event>, id: Id)
    requires log <= more
    ensures History(log, id) <= History(more, id)
    decreases |more|
  {
    if log != more {
      assert log <= more[..|more| - 1];
      HistoryPrefix(log, more[..|more| - 1], id);
    }
  }

  /** A worker that deregistered is on no watchdog's list, so nothing of its is ever requeued on its account. */
  lemma LeaversAreNotRequeued(ws: seq<World>, steps: seq<Step>, k: nat, handle: Id, a: nat)
    requires Trace(ws, steps) && k < |ws| && handle in ws[k].left && a in ws[k].actors
    ensures handle in ws[k].s.tables.workers && ws[k].s.tables.workers[handle].state == Evicted
    ensures ws[k].actors[a].Requeueing? && ws[k].actors[a].evicted != [] ==> ws[k].actors[a].evicted[0] != handle
    ensures ws[k].actors[a].Releasing? ==> ws[k].actors[a].handle != handle
  {
    AlwaysInv(ws, steps, k);
    assert handle !in EvictedBy(ws[k].actors[a]);
  }

  /** After a requeue without interruption the worker still holds exactly the leases it took on untargeted work. */
  lemma RequeueMissesUntargeted(ws: seq<World>, steps: seq<Step>, k: nat, handle: Id, ids: seq<Id>, id: Id)
    requires Trace(ws, steps) && k < |ws|
    requires Lists(ids, LeasedTo(ws[k].s.tables, handle))
    requires id in ws[k].s.tables.dispatches && ws[k].s.tables.dispatches[id].state == Leased
    requires id in ws[k].holders && ws[k].holders[id] == handle
    ensures var after := Untarget(ReleaseEach(ws[k].s, ids), handle).tables;
      && id in after.dispatches
      && (after.dispatches[id].state == Leased <==> ws[k].s.tables.dispatches[id].handle.None?)
  {
    AlwaysInv(ws, steps, k);
    var s := ws[k].s;
    assert s.tables.dispatches[id].handle.Some? ==> s.tables.dispatches[id].handle.value == handle;
    ReleaseEachMeaning(s, ids);
    assert id in ids <==> id in LeasedTo(s.tables, handle);
  }

  // ---- A single watchdog evicts only the silent ----

  ghost predicate SoleWatchdog(steps: seq<Step>, dog: nat) {
    forall k :: 0 <= k < |steps| && steps[k].StartTick? ==> steps[k].a == dog
  }

  /** Whoever on the list is still stale has not been heard from since before the cutoff. */
  ghost predicate DogRight(w: World, dog: nat) {
    && (forall a :: a in w.actors && !w.actors[a].Expiring? ==> a == dog)
    && (dog in w.actors && w.actors[dog].Evicting? ==>
          forall h :: h in w.actors[dog].todo ==> StillSilent(w.s.tables, h, w.actors[dog].cutoff))
  }

  predicate StillSilent(t: Tables, h: Id, cutoff: int) {
    h in t.workers && (t.workers[h].state == Stale ==> t.workers[h].heartbeat < cutoff)
  }

  lemma SilenceKept(s: State, tx: Tx, now: int, h: Id, cutoff: int)
    requires Legal(s, tx) && !tx.TxAge? && StillSilent(s.tables, h, cutoff)
    ensures StillSilent(Apply(s, tx, now).tables, h, cutoff)
  {
    hide Appended, Oldest;
  }

  lemma DogKept(w: World, step: Step, dog: nat)
    requires Can(w, step) && DogRight(w, dog) && (step.StartTick? ==> step.a == dog)
    ensures DogRight(After(w, step), dog)
  {
    TxIsLegal(w, step);
    hide Apply, Legal;
    var next := After(w, step);
    var tx := TxOf(w, step);
    if dog in next.actors && next.actors[dog].Evicting? {
      forall h | h in next.actors[dog].todo
        ensures StillSilent(next.s.tables, h, next.actors[dog].cutoff)
      {
        if step.StartEvict? && step.a == dog {
          assert h in SilentStale(w.s.tables, w.actors[dog].cutoff);
          SilenceKept(w.s, tx, w.now, h, next.actors[dog].cutoff);
        } else {
          assert h in w.actors[dog].todo;
          SilenceKept(w.s, tx, w.now, h, next.actors[dog].cutoff);
        }
      }
    }
  }

  lemma {:induction false} AlwaysDog(ws: seq<World>, steps: seq<Step>, k: nat, dog: nat)
    requires Trace(ws, steps) && SoleWatchdog(steps, dog) && k < |ws|
    ensures DogRight(ws[k], dog)
  {
    if k > 0 {
      AlwaysDog(ws, steps, k - 1, dog);
      assert Moves(ws[k - 1], steps[k - 1], ws[k - 1 + 1]);
      DogKept(ws[k - 1], steps[k - 1], dog);
    }
  }

  /** With one watchdog, and heartbeats arriving anywhere inside its tick, whoever is evicted has a last heartbeat
      older than the cutoff. */
  lemma SoleWatchdogEvictsTheSilent(ws: seq<World>, steps: seq<Step>, k: nat, dog: nat)
    requires Trace(ws, steps) && SoleWatchdog(steps, dog) && k < |steps| && steps[k].EvictNext?
    ensures var w := ws[k];
      var a := steps[k].a;
      && a in w.actors && w.actors[a].Evicting? && w.actors[a].todo != []
      && (EvictRow(w.s.tables, w.actors[a].todo[0]).Some? ==>
            w.s.tables.workers[w.actors[a].todo[0]].heartbeat < w.actors[a].cutoff)
  {
    AlwaysDog(ws, steps, k, dog);
    assert Moves(ws[k], steps[k], ws[k + 1]);
    var x := ws[k].actors[steps[k].a];
    assert x.todo[0] in x.todo;
  }

  // ---- Two runs that show the conditions are needed ----

  lemma Extend(ws: seq<World>, steps: seq<Step>, step: Step) returns (more: seq<World>, longer: seq<Step>, last: World)
    requires Trace(ws, steps) && Can(ws[|ws| - 1], step)
    ensures Trace(more, longer) && longer == steps + [step] && more == ws + [last]
    ensures last == After(ws[|ws| - 1], step)
  {
    hide After, Can;
    last := After(ws[|ws| - 1], step);
    more, longer := ws + [last], steps + [step];
    forall k | 0 <= k < |longer|
      ensures Moves(more[k], longer[k], more[k + 1])
    {
      if k < |steps| {
        assert Moves(ws[k], steps[k], ws[k + 1]);
      }
    }
  }

  /** A run whose last world shows the given clock, loops, workers and dispatches. */
  ghost predicate Shows(ws: seq<World>, steps: seq<Step>, now: int, actors: map<nat, Actor>, workers: map<Id, Worker>,
                        dispatches: map<Id, Dispatch>)
  {
    && Trace(ws, steps) && ws != []
    && var w := ws[|ws| - 1];
       w.now == now && w.actors == actors && w.s.tables.workers == workers && w.s.tables.dispatches == dispatches
  }

  lemma StartShows()
    ensures Shows([Start(0)], [], 0, map[], map[], map[])
  {
  }

  lemma ElapseShows(ws: seq<World>, steps: seq<Step>, now: int, actors: map<nat, Actor>, workers: map<Id, Worker>,
                    dispatches: map<Id, Dispatch>, seconds: nat) returns (more: seq<World>, longer: seq<Step>)
    requires Shows(ws, steps, now, actors, workers, dispatches)
    ensures Shows(more, longer, now + seconds, actors, workers, dispatches)
    ensures more[|more| - 1].s == ws[|ws| - 1].s && more[|more| - 1].holders == ws[|ws| - 1].holders
  {
    hide Trace;
    var w;
    more, longer, w := Extend(ws, steps, Elapse(seconds));
  }

  /** A request by a client, given what it does to the two tables. */
  lemma RequestShows(ws: seq<World>, steps: seq<Step>, now: int, actors: map<nat, Actor>, workers: map<Id, Worker>,
                     dispatches: map<Id, Dispatch>, tx: Tx) returns (more: seq<World>, longer: seq<Step>)
    requires Shows(ws, steps, now, actors, workers, dispatches)
    requires ByClient(tx) && Legal(ws[|ws| - 1].s, tx)
    ensures var t := Apply(ws[|ws| - 1].s, tx, now).tables;
      Shows(more, longer, now, actors, t.workers, t.dispatches)
    ensures more[|more| - 1].s == Apply(ws[|ws| - 1].s, tx, now)
    ensures tx.TxClaim? ==> more[|more| - 1].holders == ws[|ws| - 1].holders[tx.id := tx.handle]
  {
    hide Trace, Apply, Legal;
    var w;
    more, longer, w := Extend(ws, steps, Request(tx));
  }

  const OLD_WORKER := Worker("r", 0, 0, Stale)
  const HEARD_WORKER := Worker("r", 0, 100, Live)

  /** A worker registers at 0 and is silent; watchdog a's tick at 100 marks it stale and selects it for eviction. */
  lemma SelectedForEviction() returns (ws: seq<World>, steps: seq<Step>)
    ensures Shows(ws, steps, 100, map[0 := Evicting(40, ["h"], [])], map["h" := OLD_WORKER], map[])
  {
    hide Appended, Trace;
    ws, steps := [Start(0)], [];
    StartShows();
    ws, steps := RequestShows(ws, steps, 0, map[], map[], map[], TxRegister("h", "r"));
    var registered := map["h" := Worker("r", 0, 0, Live)];
    ws, steps := ElapseShows(ws, steps, 0, map[], registered, map[], 100);
    ws, steps := MarkShows(ws, steps, map[], registered);
    assert SilentStale(ws[|ws| - 1].s.tables, 40) == {"h"};
    var w;
    ws, steps, w := Extend(ws, steps, StartEvict(0, ["h"]));
  }

  lemma MarkShows(ws: seq<World>, steps: seq<Step>, actors: map<nat, Actor>, workers: map<Id, Worker>)
    returns (more: seq<World>, longer: seq<Step>)
    requires actors == map[] && workers == map["h" := Worker("r", 0, 0, Live)]
    requires Shows(ws, steps, 100, actors, workers, map[])
    ensures Shows(more, longer, 100, map[0 := Selecting(40)], map["h" := OLD_WORKER], map[])
  {
    hide Trace;
    var w;
    more, longer, w := Extend(ws, steps, StartTick(0, 50, 60));
    assert "h" in SilentLive(w.s.tables, 50);
    more, longer, w := Extend(more, longer, AgeNow(0));
  }

  /** It is heard from at 100, and at 200 a second watchdog marks it stale again. */
  lemma MarkedAgain(ws: seq<World>, steps: seq<Step>) returns (more: seq<World>, longer: seq<Step>)
    requires Shows(ws, steps, 100, map[0 := Evicting(40, ["h"], [])], map["h" := OLD_WORKER], map[])
    ensures Shows(more, longer, 200, map[0 := Evicting(40, ["h"], []), 1 := Selecting(140)],
                  map["h" := HEARD_WORKER.(state := Stale)], map[])
  {
    hide Appended, Trace;
    var actors := map[0 := Evicting(40, ["h"], [])];
    more, longer := RequestShows(ws, steps, 100, actors, map["h" := OLD_WORKER], map[], TxBeat("h"));
    assert map["h" := OLD_WORKER]["h" := HEARD_WORKER] == map["h" := HEARD_WORKER];
    more, longer := ElapseShows(more, longer, 100, actors, map["h" := HEARD_WORKER], map[], 100);
    more, longer := MarkAgainShows(more, longer);
  }

  lemma MarkAgainShows(ws: seq<World>, steps: seq<Step>) returns (more: seq<World>, longer: seq<Step>)
    requires Shows(ws, steps, 200, map[0 := Evicting(40, ["h"], [])], map["h" := HEARD_WORKER], map[])
    ensures Shows(more, longer, 200, map[0 := Evicting(40, ["h"], []), 1 := Selecting(140)],
                  map["h" := HEARD_WORKER.(state := Stale)], map[])
  {
    hide Trace;
    var w;
    more, longer, w := Extend(ws, steps, StartTick(1, 50, 60));
    assert "h" in SilentLive(w.s.tables, 150);
    more, longer, w := Extend(more, longer, AgeNow(1));
  }

  /** With two watchdogs the first may evict a worker heard from after the first one's cutoff. */
  lemma TwoWatchdogsEvictTheHeard() returns (ws: seq<World>, steps: seq<Step>)
    ensures Trace(ws, steps) && |steps| > 0 && steps[|steps| - 1] == EvictNext(0)
    ensures var w := ws[|ws| - 2];
      && 0 in w.actors && w.actors[0].Evicting? && w.actors[0].todo == ["h"]
      && EvictRow(w.s.tables, "h").Some?
      && w.s.tables.workers["h"].heartbeat >= w.actors[0].cutoff
  {
    hide Trace, After;
    ws, steps := SelectedForEviction();
    ws, steps := MarkedAgain(ws, steps);
    var w;
    ws, steps, w := Extend(ws, steps, EvictNext(0));
  }

  const OLD_ROW := Dispatch("run", "r", "", Pending, None, None, None, 0)

  function LeasedAt(now: int): Dispatch {
    OLD_ROW.(state := Leased, leasedAt := Some(now))
  }

  /** Untargeted work is queued and claimed at 0. */
  lemma ClaimedOnce() returns (ws: seq<World>, steps: seq<Step>)
    ensures Shows(ws, steps, 100, map[], map[], map["d" := LeasedAt(0)])
    ensures "d" in ws[|ws| - 1].holders && ws[|ws| - 1].holders["d"] == "w1"
  {
    hide Appended, Trace;
    ws, steps := [Start(0)], [];
    StartShows();
    var runs := map["run" := Run(RunActive, 0.0, None)];
    ws, steps := RequestShows(ws, steps, 0, map[], map[], map[], TxOther("run", RunCreated, "run", runs, map[], []));
    assert "run" in ws[|ws| - 1].s.tables.runs;
    ws, steps := RequestShows(ws, steps, 0, map[], map[], map[], TxEnqueue("d", "run", "r", "", ""));
    assert Oldest(ws[|ws| - 1].s.tables, "r", "w1", "d");
    ws, steps := RequestShows(ws, steps, 0, map[], map[], map["d" := OLD_ROW], TxClaim("r", "w1", "d"));
    ws, steps := ElapseShows(ws, steps, 0, map[], map[], map["d" := LeasedAt(0)], 100);
  }

  /** At 100 two expiry loops select the overdue lease, and the second releases it. */
  lemma SelectedTwice(ws: seq<World>, steps: seq<Step>)
    returns (more: seq<World>, longer: seq<Step>, x: Actor, y: Actor)
    requires Shows(ws, steps, 100, map[], map[], map["d" := LeasedAt(0)])
    ensures x.Expiring? && x.cutoff == 50 && x.todo == ["d"]
    ensures Shows(more, longer, 100, map[0 := x, 1 := y], map[], map["d" := OLD_ROW])
  {
    hide Appended, Trace;
    var w := ws[|ws| - 1];
    assert Overdue(w.s.tables, 50) == {"d"};
    more, longer, w := Extend(ws, steps, StartExpire(0, 50, ["d"]));
    more, longer, w := Extend(more, longer, StartExpire(1, 50, ["d"]));
    x := w.actors[0];
    more, longer, w := Extend(more, longer, ExpireNext(1));
    y := w.actors[1];
  }

  /** Two expiry loops select the same overdue lease; between their writes the work is claimed afresh, and the other
      write ends the new lease. */
  lemma FreshLeaseLost() returns (ws: seq<World>, steps: seq<Step>)
    ensures Trace(ws, steps) && |steps| > 0 && steps[|steps| - 1] == ExpireNext(0)
    ensures var w, next := ws[|ws| - 2], ws[|ws| - 1];
      && 0 in w.actors && w.actors[0].Expiring? && w.actors[0].todo == ["d"]
      && "d" in w.s.tables.dispatches && w.s.tables.dispatches["d"].state == Leased
      && w.s.tables.dispatches["d"].leasedAt == Some(100) && w.actors[0].cutoff == 50
      && "d" in next.s.tables.dispatches && next.s.tables.dispatches["d"].state == Pending
  {
    hide Appended, Trace;
    ws, steps := ClaimedOnce();
    var x, y, w;
    ws, steps, x, y := SelectedTwice(ws, steps);
    assert Oldest(ws[|ws| - 1].s.tables, "r", "w2", "d");
    ws, steps := RequestShows(ws, steps, 100, map[0 := x, 1 := y], map[], map["d" := OLD_ROW], TxClaim("r", "w2", "d"));
    ws, steps, w := Extend(ws, steps, ExpireNext(0));
  }

  /** A run in which requeueing the claimer leaves its lease standing, because the work was untargeted. */
  lemma RequeueMisses() returns (ws: seq<World>, steps: seq<Step>)
    ensures Trace(ws, steps)
    ensures var w := ws[|ws| - 1];
      var after := Untarget(ReleaseEach(w.s, []), "w1").tables;
      && "d" in w.holders && w.holders["d"] == "w1" && Lists([], LeasedTo(w.s.tables, "w1"))
      && "d" in after.dispatches && after.dispatches["d"].state == Leased
  {
    hide Trace;
    ws, steps := ClaimedOnce();
    RequeueMissesUntargeted(ws, steps, |ws| - 1, "w1", [], "d");
  }
}
