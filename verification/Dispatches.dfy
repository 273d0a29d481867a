/** The pull-dispatch queue: enqueue, claim, complete, expire and requeue, each one transaction on the log and the
    dispatches table, and the history every dispatch leaves in the log. */
module Dispatches {
  import opened Options
  import opened Store

  // ---- Projections ----

  /** The run must exist and the id must be new; an empty handle is stored as no handle. */
  function InsertRow(t: Tables, id: Id, runId: Id, role: string, work: string, handle: Id, now: int): Option<Tables> {
    if id in t.dispatches || runId !in t.runs then None
    else
      var target := if handle == "" then None else Some(handle);
      Some(t.(dispatches := t.dispatches[id := Dispatch(runId, role, work, Pending, target, None, None, now)]))
  }

  function LeaseRow(t: Tables, id: Id, now: int): Option<Tables> {
    if id in t.dispatches && t.dispatches[id].state == Pending then
      Some(t.(dispatches := t.dispatches[id := t.dispatches[id].(state := Leased, leasedAt := Some(now))]))
    else None
  }

  /** Completion asks only for a lease, not for whose it is. */
  function CompleteRow(t: Tables, id: Id, now: int): Option<Tables> {
    if id in t.dispatches && t.dispatches[id].state == Leased then
      Some(t.(dispatches := t.dispatches[id := t.dispatches[id].(state := Completed, completedAt := Some(now))]))
    else None
  }

  function Released(d: Dispatch): (after: Dispatch)
    ensures d.state != Leased ==> after == d
    ensures d.state == Leased ==> after == d.(state := Pending, handle := None, leasedAt := None)
  {
    if d.state == Leased then d.(state := Pending, handle := None, leasedAt := None) else d
  }

  /** Touching no row is not an error. */
  function ReleaseRow(t: Tables, id: Id): Option<Tables> {
    if id in t.dispatches then Some(t.(dispatches := t.dispatches[id := Released(t.dispatches[id])])) else Some(t)
  }

  function Untargeted(d: Dispatch, handle: Id): Dispatch {
    if d.state == Pending && d.handle == Some(handle) then d.(handle := None) else d
  }

  /** What requeueing a worker does to a row: its leases are released, its targeted work is up for grabs. */
  function Requeued(d: Dispatch, handle: Id): (after: Dispatch)
    ensures d.handle != Some(handle) || d.state == Completed ==> after == d
    ensures d.handle == Some(handle) && d.state != Completed ==>
      after == d.(state := Pending, handle := None, leasedAt := if d.state == Leased then None else d.leasedAt)
  {
    if d.handle != Some(handle) then d
    else match d.state
         case Pending => d.(handle := None)
         case Leased => d.(state := Pending, handle := None, leasedAt := None)
         case Completed => d
  }

  /** A bulk update outside the log. */
  function UntargetRows(t: Tables, handle: Id): Tables {
    t.(dispatches := map id | id in t.dispatches :: Untargeted(t.dispatches[id], handle))
  }

  // ---- Transactions ----

  function Enqueue(s: State, id: Id, runId: Id, role: string, work: string, handle: Id, now: int): State {
    Commit(s, runId, DispatchQueued, id, t => InsertRow(t, id, runId, role, work, handle, now))
  }

  /** Pending work of the role, untargeted or aimed at the caller; an ephemeral caller has no handle. */
  predicate Eligible(t: Tables, role: string, handle: Id, id: Id) {
    && id in t.dispatches
    && t.dispatches[id].state == Pending && t.dispatches[id].role == role
    && (t.dispatches[id].handle.None? || (handle != "" && t.dispatches[id].handle.value == handle))
  }

  ghost predicate Oldest(t: Tables, role: string, handle: Id, id: Id) {
    && Eligible(t, role, handle, id)
    && forall other :: Eligible(t, role, handle, other) ==> t.dispatches[id].createdAt <= t.dispatches[other].createdAt
  }

  function Claim(s: State, id: Id, now: int): State
    requires id in s.tables.dispatches
  {
    Commit(s, s.tables.dispatches[id].runId, DispatchLeased, id, t => LeaseRow(t, id, now))
  }

  function Complete(s: State, id: Id, now: int): State
    requires id in s.tables.dispatches
  {
    Commit(s, s.tables.dispatches[id].runId, DispatchCompleted, id, t => CompleteRow(t, id, now))
  }

  /** The event is written whether or not the guarded update finds a lease. */
  function Release(s: State, id: Id): State {
    if id !in s.tables.dispatches then s
    else Commit(s, s.tables.dispatches[id].runId, DispatchExpired, id, t => ReleaseRow(t, id))
  }

  function Untarget(s: State, handle: Id): State {
    s.(tables := UntargetRows(s.tables, handle))
  }

  /** One release transaction per id, in order. */
  function ReleaseEach(s: State, ids: seq<Id>): (after: State)
    ensures after.tables.dispatches.Keys == s.tables.dispatches.Keys
  {
    if ids == [] then s
    else Release(ReleaseEach(s, ids[..|ids| - 1]), ids[|ids| - 1])
  }

  // ---- Histories ----

  predicate AboutDispatch(kind: Kind) {
    kind.DispatchQueued? || kind.DispatchLeased? || kind.DispatchCompleted? || kind.DispatchExpired?
  }

  /** What the log says happened to one dispatch. */
  function History(log: seq<Event>, id: Id): seq<Kind> {
    KindsOf(log, AboutDispatch, id)
  }

  datatype Phase = Unborn | Waiting | Held | Done | Broken

  function Advance(phase: Phase, kind: Kind): Phase {
    match kind
    case DispatchQueued => if phase == Unborn then Waiting else Broken
    case DispatchLeased => if phase == Waiting then Held else Broken
    case DispatchCompleted => if phase == Held then Done else Broken
    case DispatchExpired => if phase == Held then Waiting else if phase == Unborn then Broken else phase
    case _ => Broken
  }

  /** Replaying a history: an expiry of anything but a lease changes nothing. */
  function Replay(history: seq<Kind>): Phase {
    if history == [] then Unborn
    else Advance(Replay(history[..|history| - 1]), history[|history| - 1])
  }

  function PhaseOf(t: Tables, id: Id): Phase {
    if id !in t.dispatches then Unborn
    else match t.dispatches[id].state
         case Pending => Waiting
         case Leased => Held
         case Completed => Done
  }

  /** The table is the replay of the log. */
  ghost predicate TableIsReplay(s: State) {
    forall id :: Replay(History(s.log, id)) == PhaseOf(s.tables, id)
  }

  /** Queued first and once; leases kept apart by expiries; at most one completion, right after a lease, and then
      nothing but expiries. */
  ghost predicate WellShaped(history: seq<Kind>) {
    && (history != [] ==> history[0] == DispatchQueued)
    && (forall i :: 0 < i < |history| ==> history[i] != DispatchQueued && AboutDispatch(history[i]))
    && (forall i, j :: 0 <= i < j < |history| && history[i] == history[j] == DispatchLeased ==>
          ExpiredBetween(history, i, j))
    && (forall i :: 0 <= i < |history| && history[i] == DispatchCompleted ==> CompletedAt(history, i))
  }

  ghost predicate ExpiredBetween(history: seq<Kind>, i: int, j: int) {
    exists m :: 0 <= i < m < j <= |history| && history[m] == DispatchExpired
  }

  ghost predicate CompletedAt(history: seq<Kind>, i: int)
    requires 0 <= i < |history|
  {
    && i > 0 && history[i - 1] == DispatchLeased
    && forall j :: i < j < |history| ==> history[j] == DispatchExpired
  }

  lemma {:induction false} ReplayIsWellShaped(history: seq<Kind>)
    requires Replay(history) != Broken
    ensures WellShaped(history)
    ensures Replay(history) == Unborn <==> history == []
    ensures Replay(history) == Held <==> history != [] && history[|history| - 1] == DispatchLeased
    ensures Replay(history) == Done <==> DispatchCompleted in history
    ensures Replay(history) == Waiting ==> ExpiredSinceLease(history)
  {
    if history != [] {
      var n := |history| - 1;
      ReplayIsWellShaped(history[..n]);
      ShapedMore(history, Replay(history[..n]));
    }
  }

  ghost predicate ExpiredSinceLease(history: seq<Kind>) {
    forall i :: 0 <= i < |history| && history[i] == DispatchLeased ==> ExpiredBetween(history, i, |history|)
  }

  lemma ShapedMore(history: seq<Kind>, phase: Phase)
    requires history != []
    requires var front := history[..|history| - 1];
      && WellShaped(front) && phase != Broken && (phase == Unborn <==> front == [])
      && (phase == Held <==> front != [] && front[|front| - 1] == DispatchLeased)
      && (phase == Done <==> DispatchCompleted in front)
      && (phase == Waiting ==> ExpiredSinceLease(front))
    requires Advance(phase, history[|history| - 1]) != Broken
    ensures WellShaped(history)
    ensures Advance(phase, history[|history| - 1]) == Waiting ==> ExpiredSinceLease(history)
  {
    var n := |history| - 1;
    var front := history[..n];
    forall i, j | 0 <= i < j <= n && ExpiredBetween(front, i, j)
      ensures ExpiredBetween(history, i, j) && ExpiredBetween(history, i, |history|)
    {
      var m :| 0 <= i < m < j <= |front| && front[m] == DispatchExpired;
      assert history[m] == DispatchExpired;
    }
    forall i, j | 0 <= i < j <= n && history[i] == history[j] == DispatchLeased
      ensures ExpiredBetween(history, i, j)
    {
      assert front[i] == DispatchLeased;
      assert ExpiredBetween(front, i, j);
    }
    forall i | 0 <= i <= n && history[i] == DispatchCompleted
      ensures CompletedAt(history, i)
    {
      if i < n {
        assert front[i] == DispatchCompleted && CompletedAt(front, i);
      }
    }
    if Advance(phase, history[n]) == Waiting {
      forall i | 0 <= i < n && history[i] == DispatchLeased
        ensures ExpiredBetween(history, i, |history|)
      {
        assert front[i] == DispatchLeased;
        if history[n] == DispatchExpired {
          assert i < n < |history|;
        }
      }
    }
  }

  lemma FrontShaped(history: seq<Kind>)
    requires WellShaped(history) && history != []
    ensures WellShaped(history[..|history| - 1])
  {
    var front := history[..|history| - 1];
    forall i, j | 0 <= i < j < |front| && front[i] == front[j] == DispatchLeased
      ensures ExpiredBetween(front, i, j)
    {
      assert ExpiredBetween(history, i, j);
      var m :| i < m < j && history[m] == DispatchExpired;
      assert front[m] == DispatchExpired;
    }
    forall i | 0 <= i < |front| && front[i] == DispatchCompleted
      ensures CompletedAt(front, i)
    {
      assert CompletedAt(history, i);
    }
  }

  lemma LastShaped(history: seq<Kind>)
    requires WellShaped(history) && history != []
    ensures var last := history[|history| - 1];
      && (last == DispatchQueued <==> |history| == 1)
      && AboutDispatch(last)
      && (|history| > 1 && last == DispatchLeased ==> history[|history| - 2] != DispatchLeased)
      && (DispatchCompleted in history[..|history| - 1] ==> last == DispatchExpired)
      && (last == DispatchCompleted ==> |history| > 1 && history[|history| - 2] == DispatchLeased)
  {
    var n := |history| - 1;
    assert n > 0 && history[n - 1] == history[n] == DispatchLeased ==> ExpiredBetween(history, n - 1, n);
    forall i | 0 <= i < n && history[i] == DispatchCompleted
      ensures history[n] == DispatchExpired
    {
      assert CompletedAt(history, i);
    }
    assert history[n] == DispatchCompleted ==> CompletedAt(history, n);
  }

  /** Conversely a well-shaped history replays: the shape says everything the log can tell about a dispatch. */
  lemma {:induction false} WellShapedReplays(history: seq<Kind>)
    requires WellShaped(history)
    ensures Replay(history) != Broken
  {
    hide WellShaped;
    if history != [] {
      var front := history[..|history| - 1];
      FrontShaped(history);
      LastShaped(history);
      WellShapedReplays(front);
      ReplayIsWellShaped(front);
    }
  }

  // ---- Every transaction keeps the table and the log in step ----

  lemma StepOne(history: seq<Kind>, kind: Kind)
    ensures Replay(history + [kind]) == Advance(Replay(history), kind)
    ensures history + [] == history
  {
    assert (history + [kind])[..|history|] == history;
  }

  /** One logged event advances its own dispatch and nobody else's. */
  lemma StepKeeps(s: State, runId: Id, kind: Kind, subject: Id, tables: Tables)
    requires TableIsReplay(s) && AboutDispatch(kind)
    requires PhaseOf(tables, subject) == Advance(PhaseOf(s.tables, subject), kind)
    requires forall other :: other != subject ==> PhaseOf(tables, other) == PhaseOf(s.tables, other)
    ensures TableIsReplay(State(Appended(s.log, runId, kind, subject), tables))
  {
    hide Replay, KindsOf, PhaseOf, Appended;
    forall id
      ensures Replay(History(Appended(s.log, runId, kind, subject), id)) == PhaseOf(tables, id)
    {
      KindsOfMore(s.log, runId, kind, subject, AboutDispatch, id);
      StepOne(History(s.log, id), kind);
    }
  }

  lemma EnqueueKeeps(s: State, id: Id, runId: Id, role: string, work: string, handle: Id, now: int)
    requires TableIsReplay(s)
    ensures TableIsReplay(Enqueue(s, id, runId, role, work, handle, now))
  {
    hide TableIsReplay, Appended;
    var rows := InsertRow(s.tables, id, runId, role, work, handle, now);
    if rows.Some? {
      StepKeeps(s, runId, DispatchQueued, id, rows.value);
    }
  }

  lemma ClaimKeeps(s: State, id: Id, now: int)
    requires TableIsReplay(s) && id in s.tables.dispatches
    ensures TableIsReplay(Claim(s, id, now))
  {
    hide TableIsReplay, Appended;
    var rows := LeaseRow(s.tables, id, now);
    if rows.Some? {
      StepKeeps(s, s.tables.dispatches[id].runId, DispatchLeased, id, rows.value);
    }
  }

  lemma CompleteKeeps(s: State, id: Id, now: int)
    requires TableIsReplay(s) && id in s.tables.dispatches
    ensures TableIsReplay(Complete(s, id, now))
  {
    hide TableIsReplay, Appended;
    var rows := CompleteRow(s.tables, id, now);
    if rows.Some? {
      StepKeeps(s, s.tables.dispatches[id].runId, DispatchCompleted, id, rows.value);
    }
  }

  lemma ReleaseKeeps(s: State, id: Id)
    requires TableIsReplay(s)
    ensures TableIsReplay(Release(s, id))
  {
    hide TableIsReplay, Appended;
    if id in s.tables.dispatches {
      StepKeeps(s, s.tables.dispatches[id].runId, DispatchExpired, id, ReleaseRow(s.tables, id).value);
    }
  }

  lemma UntargetKeeps(s: State, handle: Id)
    requires TableIsReplay(s)
    ensures TableIsReplay(Untarget(s, handle))
  {
    hide Replay, KindsOf;
    var after := Untarget(s, handle);
    forall id
      ensures Replay(History(after.log, id)) == PhaseOf(after.tables, id)
    {
      assert PhaseOf(after.tables, id) == PhaseOf(s.tables, id);
    }
  }

  // ---- Releasing a whole snapshot with nobody in between ----

  lemma ReleaseMeaning(s: State, id: Id)
    requires id in s.tables.dispatches
    ensures var after := Release(s, id);
      && after.tables.dispatches == s.tables.dispatches[id := Released(s.tables.dispatches[id])]
      && after.tables == s.tables.(dispatches := after.tables.dispatches)
      && |after.log| == |s.log| + 1 && after.log[..|s.log|] == s.log
      && after.log[|s.log|].kind == DispatchExpired && after.log[|s.log|].subject == id
  {
    hide MaxSequence, Released;
  }

  /** Rows in the snapshot are released, all others untouched; one expiry is logged per row of the snapshot. */
  lemma {:induction false} ReleaseEachMeaning(s: State, ids: seq<Id>)
    requires forall id :: id in ids ==> id in s.tables.dispatches
    ensures var after := ReleaseEach(s, ids);
      && after.tables == s.tables.(dispatches := after.tables.dispatches)
      && (forall id :: id in s.tables.dispatches ==>
            after.tables.dispatches[id] == if id in ids then Released(s.tables.dispatches[id])
              else s.tables.dispatches[id])
      && (forall id :: id in ids && s.tables.dispatches[id].state == Leased ==>
            after.tables.dispatches[id] ==
              s.tables.dispatches[id].(state := Pending, handle := None, leasedAt := None))
    ensures ReleasesLogged(s.log, ids, ReleaseEach(s, ids).log)
  {
    hide Release, ReleasesLogged;
    if ids == [] {
      NothingLogged(s.log);
    } else {
      var front := ids[..|ids| - 1];
      var last := ids[|ids| - 1];
      ReleaseEachMeaning(s, front);
      var before := ReleaseEach(s, front);
      ReleaseMeaning(before, last);
      assert forall id :: id in ids <==> id in front || id == last;
      ReleaseLoggedMore(s.log, ids, before.log, ReleaseEach(s, ids).log);
    }
  }

  ghost predicate ReleasesLogged(log: seq<Event>, ids: seq<Id>, after: seq<Event>) {
    log <= after && ExpiriesOf(after[|log|..], ids)
  }

  ghost predicate ExpiriesOf(events: seq<Event>, ids: seq<Id>) {
    && |events| == |ids|
    && forall k :: 0 <= k < |ids| ==> events[k].kind == DispatchExpired && events[k].subject == ids[k]
  }

  lemma NothingLogged(log: seq<Event>)
    ensures ReleasesLogged(log, [], log)
  {
  }

  lemma ReleaseLoggedMore(log: seq<Event>, ids: seq<Id>, mid: seq<Event>, after: seq<Event>)
    requires ids != [] && ReleasesLogged(log, ids[..|ids| - 1], mid)
    requires |after| == |mid| + 1 && after[..|mid|] == mid
    requires after[|mid|].kind == DispatchExpired && after[|mid|].subject == ids[|ids| - 1]
    ensures ReleasesLogged(log, ids, after)
  {
    assert after == mid + [after[|mid|]];
    assert after[|log|..] == mid[|log|..] + [after[|mid|]];
    assert ids == ids[..|ids| - 1] + [ids[|ids| - 1]];
  }

  /** The ids of leases taken at or before the cutoff. */
  function Overdue(t: Tables, cutoff: int): set<Id> {
    set id | id in t.dispatches && t.dispatches[id].state == Leased
          && t.dispatches[id].leasedAt.Some? && t.dispatches[id].leasedAt.value <= cutoff
  }

  function LeasedTo(t: Tables, handle: Id): set<Id> {
    set id | id in t.dispatches && t.dispatches[id].state == Leased && t.dispatches[id].handle == Some(handle)
  }

  class DispatchStore {
    const db: Database

    constructor (db: Database)
      ensures this.db == db
    {
      this.db := db;
    }

    method EnqueueDispatch(id: Id, runId: Id, role: string, work: string, handle: Id, now: int) returns (ok: bool)
      modifies db
      ensures db.Current() == Enqueue(old(db.Current()), id, runId, role, work, handle, now)
      ensures ok <==> old(id !in db.tables.dispatches && runId in db.tables.runs)
      ensures !ok ==> db.Current() == old(db.Current())
      ensures ok ==> db.log == Appended(old(db.log), runId, DispatchQueued, id)
      ensures ok ==> db.tables == old(db.tables).(dispatches := old(db.tables.dispatches)[id :=
        Dispatch(runId, role, work, Pending, if handle == "" then None else Some(handle), None, None, now)])
    {
      ok := db.WriteEventThenRow(runId, DispatchQueued, id, t => InsertRow(t, id, runId, role, work, handle, now));
    }

    /** The transaction is written out: select the oldest, number the event, insert it, update under a guard. */
    method ClaimNextDispatch(role: string, handle: Id, now: int) returns (claimed: Option<Id>)
      modifies db
      ensures claimed.None? ==> db.Current() == old(db.Current())
      ensures claimed.None? <==> forall id :: !old(Eligible(db.tables, role, handle, id))
      ensures claimed.Some? ==> old(Oldest(db.tables, role, handle, claimed.value))
      ensures claimed.None? <==> forall id :: id in old(db.tables.dispatches) ==> (
        var d := old(db.tables.dispatches[id]);
        d.state != Pending || d.role != role || (d.handle.Some? && (handle == "" || d.handle.value != handle)))
      ensures claimed.Some? ==> claimed.value in old(db.tables.dispatches)
      ensures claimed.Some? ==> (
        var d := old(db.tables.dispatches[claimed.value]);
        && d.state == Pending && d.role == role && (d.handle.None? || (handle != "" && d.handle.value == handle))
        && forall id :: id in old(db.tables.dispatches) ==> (
             var other := old(db.tables.dispatches[id]);
             || other.createdAt >= d.createdAt || other.state != Pending || other.role != role
             || (other.handle.Some? && (handle == "" || other.handle.value != handle))))
      ensures claimed.Some? ==> db.Current() == Claim(old(db.Current()), claimed.value, now)
      ensures claimed.Some? ==>
        db.log == Appended(old(db.log), old(db.tables.dispatches[claimed.value].runId), DispatchLeased, claimed.value)
      ensures claimed.Some? ==> db.tables == old(db.tables).(dispatches := old(db.tables.dispatches)[claimed.value :=
        old(db.tables.dispatches[claimed.value]).(state := Leased, leasedAt := Some(now))])
    {
      claimed := SelectOldest(role, handle);
      assert forall id :: id in db.tables.dispatches && claimed.None? ==> !Eligible(db.tables, role, handle, id);
      if claimed.None? {
        return;
      }
      var id := claimed.value;
      var runId := db.tables.dispatches[id].runId;
      var event := Event(runId, MaxSequence(db.log, runId) + 1, DispatchLeased, id);
      var written := db.log + [event];
      var updated := LeaseRow(db.tables, id, now);
      if updated.None? {
        return None;
      }
      db.log, db.tables := written, updated.value;
    }

    method SelectOldest(role: string, handle: Id) returns (found: Option<Id>)
      ensures found.None? <==> forall id :: !Eligible(db.tables, role, handle, id)
      ensures found.Some? ==> Oldest(db.tables, role, handle, found.value)
    {
      var t := db.tables;
      var rows := Listing(set id | id in t.dispatches && Eligible(t, role, handle, id));
      found := None;
      for k := 0 to |rows|
        invariant found.None? <==> k == 0
        invariant found.Some? ==> Eligible(t, role, handle, found.value)
        invariant forall j :: 0 <= j < k ==> (
          rows[j] in t.dispatches && t.dispatches[found.value].createdAt <= t.dispatches[rows[j]].createdAt)
      {
        assert rows[k] in rows;
        if found.None? || t.dispatches[rows[k]].createdAt < t.dispatches[found.value].createdAt {
          found := Some(rows[k]);
        }
      }
      assert forall id :: Eligible(t, role, handle, id) ==> id in rows;
      if found.None? {
        assert forall id :: id !in rows;
      }
    }

    method CompleteDispatch(id: Id, now: int) returns (ok: bool)
      modifies db
      ensures ok <==> old(id in db.tables.dispatches && db.tables.dispatches[id].state == Leased)
      ensures !ok ==> db.Current() == old(db.Current())
      ensures ok ==> db.Current() == Complete(old(db.Current()), id, now)
      ensures ok ==> db.log == Appended(old(db.log), old(db.tables.dispatches[id].runId), DispatchCompleted, id)
      ensures ok ==> db.tables == old(db.tables).(dispatches := old(db.tables.dispatches)[id :=
        old(db.tables.dispatches[id]).(state := Completed, completedAt := Some(now))])
    {
      if id !in db.tables.dispatches {
        return false;
      }
      var runId := db.tables.dispatches[id].runId;
      ok := db.WriteEventThenRow(runId, DispatchCompleted, id, t => CompleteRow(t, id, now));
    }

    /** The loop both callers run over their snapshot, one transaction per row. */
    method ReleaseRows(ids: seq<Id>)
      modifies db
      ensures db.Current() == ReleaseEach(old(db.Current()), ids)
    {
      hide Release;
      ghost var before := db.Current();
      for k := 0 to |ids|
        invariant db.Current() == ReleaseEach(before, ids[..k])
      {
        assert ids[..k + 1][..k] == ids[..k];
        var released := ReleaseOne(ids[k]);
      }
      assert ids[..|ids|] == ids;
    }

    /** With nobody in between, every overdue lease and nothing else goes back to the queue. */
    method ExpireLeases(now: int, timeout: int) returns (ids: seq<Id>)
      modifies db
      ensures Lists(ids, old(Overdue(db.tables, now - timeout)))
      ensures db.Current() == ReleaseEach(old(db.Current()), ids)
      ensures Overdue(db.tables, now - timeout) == {}
      ensures db.tables.dispatches.Keys == old(db.tables.dispatches.Keys)
      ensures forall id :: id in db.tables.dispatches ==> (
        var d := old(db.tables.dispatches[id]);
        var overdue := d.state == Leased && d.leasedAt.Some? && d.leasedAt.value <= now - timeout;
        && (overdue <==> id in ids)
        && db.tables.dispatches[id] ==
             if overdue then d.(state := Pending, handle := None, leasedAt := None) else d)
      ensures ReleasesLogged(old(db.log), ids, db.log)
    {
      hide ReleaseEach;
      ghost var before := db.Current();
      ids := Listing(Overdue(db.tables, now - timeout));
      ReleaseRows(ids);
      ReleaseEachMeaning(before, ids);
    }

    method ReleaseOne(id: Id) returns (ok: bool)
      modifies db
      ensures ok && db.Current() == Release(old(db.Current()), id)
    {
      if id !in db.tables.dispatches {
        return true;
      }
      var runId := db.tables.dispatches[id].runId;
      ok := db.WriteEventThenRow(runId, DispatchExpired, id, t => ReleaseRow(t, id));
    }

    /** With nobody in between, no pending or leased row keeps the handle and no other row changes. */
    method RequeueByWorker(handle: Id) returns (ids: seq<Id>)
      modifies db
      ensures Lists(ids, old(LeasedTo(db.tables, handle)))
      ensures db.Current() == Untarget(ReleaseEach(old(db.Current()), ids), handle)
      ensures forall id :: id in db.tables.dispatches && db.tables.dispatches[id].state != Completed ==>
        db.tables.dispatches[id].handle != Some(handle)
      ensures db.tables.dispatches.Keys == old(db.tables.dispatches.Keys)
      ensures forall id :: id in db.tables.dispatches ==>
        db.tables.dispatches[id] == Requeued(old(db.tables.dispatches[id]), handle)
      ensures forall id :: id in ids <==> (
        && id in old(db.tables.dispatches)
        && old(db.tables.dispatches[id]).state == Leased && old(db.tables.dispatches[id]).handle == Some(handle))
      ensures ReleasesLogged(old(db.log), ids, db.log)
    {
      hide ReleaseEach;
      ghost var before := db.Current();
      ids := Listing(LeasedTo(db.tables, handle));
      ReleaseRows(ids);
      ReleaseEachMeaning(before, ids);
      assert forall id :: id in ids <==> id in LeasedTo(before.tables, handle);
      db.tables := UntargetRows(db.tables, handle);
    }
  }
}
