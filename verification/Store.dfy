/** The runtime's database: an event log that numbers events per run, and the tables projected from it.
    Every transaction writes its event first and commits event and projection together or not at all. */
module Store {
  import opened Options

  type Id = string

  datatype Kind =
    | RunCreated | RunCompleted
    | JobCreated | JobLeased | JobCompleted | JobFailed
    | SupervisorRetry(attempt: nat, feedback: string, failed: seq<string>)
    | ComplianceBreach(failed: seq<string>, attempts: nat)
    | DispatchQueued | DispatchLeased | DispatchCompleted | DispatchExpired
    | WorkerRegistered | WorkerHeartbeat | WorkerDeregistered
    | CostDelta(usd: real, cumulative: real, budget: real)

  /** The subject is the event's correlation id: the job, dispatch or worker it is about. */
  datatype Event = Event(runId: Id, sequence: nat, kind: Kind, subject: Id)

  datatype RunState = RunActive | RunDone | RunFailed
  datatype Run = Run(state: RunState, cost: real, budget: Option<real>)

  datatype JobState = JobPending | JobDispatched | JobComplete | JobFailure
  datatype Job = Job(runId: Id, role: string, state: JobState, dispatchedBy: string, cost: real)

  datatype DispatchState = Pending | Leased | Completed
  datatype Dispatch = Dispatch(runId: Id, role: string, work: string, state: DispatchState, handle: Option<Id>,
                               leasedAt: Option<int>, completedAt: Option<int>, createdAt: int)

  datatype WorkerState = Live | Stale | Evicted
  datatype Worker = Worker(role: string, registeredAt: int, heartbeat: int, state: WorkerState)

  datatype CostRow = CostRow(runId: Id, jobId: Id, usd: real)

  datatype Tables = Tables(runs: map<Id, Run>, jobs: map<Id, Job>, dispatches: map<Id, Dispatch>,
                           workers: map<Id, Worker>, costs: seq<CostRow>)

  datatype State = State(log: seq<Event>, tables: Tables)

  // ---- Sequence numbers ----

  /** COALESCE(MAX(sequence), 0) over a run's events. */
  function MaxSequence(log: seq<Event>, runId: Id): nat {
    if log == [] then 0
    else
      var most := MaxSequence(log[..|log| - 1], runId);
      var last := log[|log| - 1];
      if last.runId == runId && last.sequence > most then last.sequence else most
  }

  /** A run's events in commit order. */
  function ForRun(log: seq<Event>, runId: Id): seq<Event> {
    if log == [] then []
    else
      var last := log[|log| - 1];
      ForRun(log[..|log| - 1], runId) + if last.runId == runId then [last] else []
  }

  lemma {:induction false} ForRunIs(log: seq<Event>, runId: Id)
    ensures forall e :: e in ForRun(log, runId) <==> e in log && e.runId == runId
  {
    if log != [] {
      ForRunIs(log[..|log| - 1], runId);
      assert log == log[..|log| - 1] + [log[|log| - 1]];
    }
  }

  /** Every event's number is one more than the events of its run committed before it. */
  ghost predicate WellSequenced(log: seq<Event>) {
    log != [] ==>
      var front := log[..|log| - 1];
      var last := log[|log| - 1];
      WellSequenced(front) && last.sequence == |ForRun(front, last.runId)| + 1
  }

  function Appended(log: seq<Event>, runId: Id, kind: Kind, subject: Id): seq<Event> {
    log + [Event(runId, MaxSequence(log, runId) + 1, kind, subject)]
  }

  lemma {:induction false} MaxIsCount(log: seq<Event>, runId: Id)
    requires WellSequenced(log)
    ensures MaxSequence(log, runId) == |ForRun(log, runId)|
  {
    if log != [] {
      MaxIsCount(log[..|log| - 1], runId);
    }
  }

  /** Appending with the next number keeps the log well sequenced. */
  lemma AppendedSequenced(log: seq<Event>, runId: Id, kind: Kind, subject: Id)
    requires WellSequenced(log)
    ensures WellSequenced(Appended(log, runId, kind, subject))
  {
    MaxIsCount(log, runId);
    var more := Appended(log, runId, kind, subject);
    assert more[..|more| - 1] == log;
  }

  /** A run's numbers are exactly 1..n, in commit order, with no gap. */
  lemma {:induction false} NumberedInOrder(log: seq<Event>, runId: Id)
    requires WellSequenced(log)
    ensures forall k :: 0 <= k < |ForRun(log, runId)| ==>
      ForRun(log, runId)[k].sequence == k + 1 && ForRun(log, runId)[k].runId == runId
  {
    if log != [] {
      NumberedInOrder(log[..|log| - 1], runId);
    }
  }

  /** Rows of a query in some order: each of the run's events once, sequences ascending. */
  ghost predicate OrderedListing(rows: seq<Event>, log: seq<Event>, runId: Id) {
    && (forall e :: e in rows <==> e in ForRun(log, runId))
    && (forall i, j :: 0 <= i < j < |rows| ==> rows[i].sequence <= rows[j].sequence && rows[i] != rows[j])
  }

  /** Ordering by sequence gives back the commit order, whatever order the rows were stored in. */
  lemma ListingIsCommitOrder(rows: seq<Event>, log: seq<Event>, runId: Id)
    requires WellSequenced(log) && OrderedListing(rows, log, runId)
    ensures rows == ForRun(log, runId)
  {
    hide ForRun;
    var commits := ForRun(log, runId);
    NumberedInOrder(log, runId);
    var k := 0;
    while k < |rows|
      invariant k <= |rows| && k <= |commits|
      invariant forall j :: 0 <= j < k ==> rows[j] == commits[j]
    {
      assert rows[k] in commits;
      var at :| 0 <= at < |commits| && commits[at] == rows[k];
      assert commits[k] in rows;
      var m :| 0 <= m < |rows| && rows[m] == commits[k];
      assert rows[k].sequence == at + 1 && rows[m].sequence == k + 1;
      k := k + 1;
    }
    if commits != [] {
      var last := commits[|commits| - 1];
      assert last in rows;
      var m :| 0 <= m < |rows| && rows[m] == last;
      assert rows[m] == commits[m];
    }
  }

  /** What the log says happened to one subject, in commit order, as far as the kinds of interest go. */
  function KindsOf(log: seq<Event>, about: Kind -> bool, id: Id): seq<Kind> {
    if log == [] then []
    else
      var last := log[|log| - 1];
      KindsOf(log[..|log| - 1], about, id) + if about(last.kind) && last.subject == id then [last.kind] else []
  }

  lemma KindsOfMore(log: seq<Event>, runId: Id, kind: Kind, subject: Id, about: Kind -> bool, id: Id)
    ensures KindsOf(Appended(log, runId, kind, subject), about, id)
         == KindsOf(log, about, id) + if about(kind) && subject == id then [kind] else []
  {
    var more := Appended(log, runId, kind, subject);
    assert more[..|more| - 1] == log;
  }

  // ---- Transactions ----

  /** Write the event, then apply the projection; a failing projection rolls both back. */
  function Commit(s: State, runId: Id, kind: Kind, subject: Id, apply: Tables -> Option<Tables>): State {
    match apply(s.tables)
    case None => s
    case Some(tables) => State(Appended(s.log, runId, kind, subject), tables)
  }

  lemma CommitSequenced(s: State, runId: Id, kind: Kind, subject: Id, apply: Tables -> Option<Tables>)
    requires WellSequenced(s.log)
    ensures var after := Commit(s, runId, kind, subject, apply);
      && WellSequenced(after.log)
      && (after.log == s.log || |ForRun(after.log, runId)| == |ForRun(s.log, runId)| + 1)
  {
    AppendedSequenced(s.log, runId, kind, subject);
    var more := Appended(s.log, runId, kind, subject);
    assert more[..|more| - 1] == s.log;
  }

  class Database {
    var log: seq<Event>
    var tables: Tables

    constructor ()
      ensures Current() == State([], Tables(map[], map[], map[], map[], []))
    {
      log := [];
      tables := Tables(map[], map[], map[], map[], []);
    }

    function Current(): State
      reads this
    {
      State(log, tables)
    }

    method WriteEventThenRow(runId: Id, kind: Kind, subject: Id, apply: Tables -> Option<Tables>) returns (ok: bool)
      modifies this
      ensures Current() == Commit(old(Current()), runId, kind, subject, apply)
      ensures ok <==> apply(old(tables)).Some?
      ensures old(WellSequenced(log)) ==> WellSequenced(log)
    {
      ghost var before := Current();
      CommitSequencedIf(before, runId, kind, subject, apply);
      var event := Event(runId, MaxSequence(log, runId) + 1, kind, subject);
      var written := log + [event];
      var projected := apply(tables);
      if projected.None? {
        return false;
      }
      log, tables := written, projected.value;
      return true;
    }

    /** Rows in ascending sequence; in a well-sequenced log that is the commit order. */
    method ListEvents(runId: Id) returns (rows: seq<Event>)
      requires WellSequenced(log)
      ensures OrderedListing(rows, log, runId) && rows == ForRun(log, runId)
    {
      rows := [];
      for k := 0 to |log|
        invariant rows == ForRun(log[..k], runId)
      {
        assert log[..k + 1][..k] == log[..k];
        if log[k].runId == runId {
          rows := rows + [log[k]];
        }
      }
      assert log[..|log|] == log;
      NumberedInOrder(log, runId);
    }
  }

  lemma CommitSequencedIf(s: State, runId: Id, kind: Kind, subject: Id, apply: Tables -> Option<Tables>)
    ensures WellSequenced(s.log) ==> WellSequenced(Commit(s, runId, kind, subject, apply).log)
  {
    if WellSequenced(s.log) {
      CommitSequenced(s, runId, kind, subject, apply);
    }
  }

  /** The rows of a query that promises no order: each key once. */
  ghost predicate Lists(ids: seq<Id>, keys: set<Id>) {
    && (forall id :: id in ids <==> id in keys)
    && (forall i, j :: 0 <= i < j < |ids| ==> ids[i] != ids[j])
  }

  method Listing(keys: set<Id>) returns (ids: seq<Id>)
    ensures Lists(ids, keys)
  {
    ids := [];
    var left := keys;
    while left != {}
      invariant left <= keys
      invariant Lists(ids, keys - left)
      decreases |left|
    {
      var id :| id in left;
      assert id !in ids;
      left := left - {id};
      ids := ids + [id];
    }
    assert keys - left == keys;
  }
}
