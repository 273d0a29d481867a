/** Costs are kept three times: as rows, as running totals on runs and jobs, and as cumulative figures in the log.
    Amounts are exact reals. */
module CostLedger {
  import opened Options
  import opened Store

  // ---- Sums over rows ----

  /** A job's home is the run it was created for; nothing makes a sample name its job's home. */
  datatype Filter =
    | OfRun(id: Id)
    | OfJob(id: Id)
    | Leaked(id: Id, home: map<Id, Id>)
    | Borrowed(id: Id, home: map<Id, Id>)

  predicate Selects(filter: Filter, row: CostRow) {
    match filter
    case OfRun(id) => row.runId == id
    case OfJob(id) => row.jobId == id
    case Leaked(id, home) => row.runId == id && !(row.jobId in home && home[row.jobId] == id)
    case Borrowed(id, home) => row.runId != id && row.jobId in home && home[row.jobId] == id
  }

  function Sum(costs: seq<CostRow>, filter: Filter): real {
    if costs == [] then 0.0
    else
      var last := costs[|costs| - 1];
      Sum(costs[..|costs| - 1], filter) + if Selects(filter, last) then last.usd else 0.0
  }

  lemma SumMore(costs: seq<CostRow>, row: CostRow, filter: Filter)
    ensures Sum(costs + [row], filter) == Sum(costs, filter) + if Selects(filter, row) then row.usd else 0.0
  {
    assert (costs + [row])[..|costs|] == costs;
  }

  function RowsOf(costs: seq<CostRow>, runId: Id): seq<CostRow> {
    if costs == [] then []
    else
      var last := costs[|costs| - 1];
      RowsOf(costs[..|costs| - 1], runId) + if last.runId == runId then [last] else []
  }

  /** The cost events of a run in commit order. */
  function DeltasOf(log: seq<Event>, runId: Id): seq<Kind> {
    if log == [] then []
    else
      var last := log[|log| - 1];
      DeltasOf(log[..|log| - 1], runId) + if last.runId == runId && last.kind.CostDelta? then [last.kind] else []
  }

  lemma DeltasMore(log: seq<Event>, runId: Id, kind: Kind, subject: Id, id: Id)
    ensures DeltasOf(Appended(log, runId, kind, subject), id)
         == DeltasOf(log, id) + if runId == id && kind.CostDelta? then [kind] else []
  {
    var more := Appended(log, runId, kind, subject);
    assert more[..|more| - 1] == log;
  }

  lemma RowsMore(costs: seq<CostRow>, row: CostRow, id: Id)
    ensures RowsOf(costs + [row], id) == RowsOf(costs, id) + if row.runId == id then [row] else []
  {
    assert (costs + [row])[..|costs|] == costs;
  }

  lemma {:induction false} RowsSum(costs: seq<CostRow>, runId: Id)
    ensures Sum(RowsOf(costs, runId), OfRun(runId)) == Sum(costs, OfRun(runId))
  {
    if costs != [] {
      RowsSum(costs[..|costs| - 1], runId);
      SumMore(RowsOf(costs[..|costs| - 1], runId), costs[|costs| - 1], OfRun(runId));
      assert RowsOf(costs[..|costs| - 1], runId) + [] == RowsOf(costs[..|costs| - 1], runId);
    }
  }

  // ---- The transaction ----

  /** Both foreign keys must hold; the sample is added to its row, its job and its run at once. */
  function ChargeRows(t: Tables, runId: Id, jobId: Id, usd: real): Option<Tables> {
    if runId !in t.runs || jobId !in t.jobs then None
    else Some(t.(costs := t.costs + [CostRow(runId, jobId, usd)],
                 jobs := t.jobs[jobId := t.jobs[jobId].(cost := t.jobs[jobId].cost + usd)],
                 runs := t.runs[runId := t.runs[runId].(cost := t.runs[runId].cost + usd)]))
  }

  function DeltaFor(t: Tables, runId: Id, usd: real): Kind
    requires runId in t.runs
  {
    var run := t.runs[runId];
    CostDelta(usd, run.cost + usd, if run.budget.Some? then run.budget.value else 0.0)
  }

  function Charge(s: State, runId: Id, jobId: Id, usd: real): State {
    if runId !in s.tables.runs then s
    else Commit(s, runId, DeltaFor(s.tables, runId, usd), jobId, t => ChargeRows(t, runId, jobId, usd))
  }

  class CostEventStore {
    const db: Database

    constructor (db: Database)
      ensures this.db == db
    {
      this.db := db;
    }

    /** Written out: read the run, number the event, insert it, insert the row, bump both totals. */
    method RecordCost(runId: Id, jobId: Id, usd: real) returns (ok: bool)
      modifies db
      ensures db.Current() == Charge(old(db.Current()), runId, jobId, usd)
      ensures ok <==> old(runId in db.tables.runs && jobId in db.tables.jobs)
      ensures !ok ==> db.Current() == old(db.Current())
      ensures ok ==> (
        var t := old(db.tables);
        var total := t.runs[runId].cost + usd;
        && db.tables == t.(costs := t.costs + [CostRow(runId, jobId, usd)],
                           jobs := t.jobs[jobId := t.jobs[jobId].(cost := t.jobs[jobId].cost + usd)],
                           runs := t.runs[runId := t.runs[runId].(cost := total)])
        && db.log == Appended(old(db.log), runId,
             CostDelta(usd, total, if t.runs[runId].budget.Some? then t.runs[runId].budget.value else 0.0), jobId))
    {
      if runId !in db.tables.runs {
        return false;
      }
      var run := db.tables.runs[runId];
      var cumulative := run.cost + usd;
      var budget := if run.budget.Some? then run.budget.value else 0.0;
      var event := Event(runId, MaxSequence(db.log, runId) + 1, CostDelta(usd, cumulative, budget), jobId);
      if jobId !in db.tables.jobs {
        return false;
      }
      var costs := db.tables.costs + [CostRow(runId, jobId, usd)];
      var jobs := db.tables.jobs[jobId := db.tables.jobs[jobId].(cost := db.tables.jobs[jobId].cost + usd)];
      var runs := db.tables.runs[runId := run.(cost := run.cost + usd)];
      db.log, db.tables := db.log + [event], db.tables.(costs := costs, jobs := jobs, runs := runs);
      return true;
    }

    method SumByRun(runId: Id) returns (total: real)
      ensures total == Sum(db.tables.costs, OfRun(runId))
    {
      total := SumRows(db.tables.costs, OfRun(runId));
    }

    method SumByJob(jobId: Id) returns (total: real)
      ensures total == Sum(db.tables.costs, OfJob(jobId))
    {
      total := SumRows(db.tables.costs, OfJob(jobId));
    }
  }

  method SumRows(costs: seq<CostRow>, filter: Filter) returns (total: real)
    ensures total == Sum(costs, filter)
  {
    total := 0.0;
    for k := 0 to |costs|
      invariant total == Sum(costs[..k], filter)
    {
      assert costs[..k + 1][..k] == costs[..k];
      if Selects(filter, costs[k]) {
        total := total + costs[k].usd;
      }
    }
    assert costs[..|costs|] == costs;
  }

  // ---- Books ----

  /** The store with the opening balance of every run and job. */
  datatype Books = Books(s: State, runs0: map<Id, real>, jobs0: map<Id, real>)

  /** What can happen to the books: runs and jobs are opened, samples are charged, and the rest of the system does
      as it likes as long as it leaves costs alone. */
  datatype Entry =
    | OpenRun(id: Id, run: Run)
    | OpenJob(id: Id, job: Job)
    | Sample(runId: Id, jobId: Id, usd: real)
    | Elsewhere(runId: Id, kind: Kind, subject: Id, tables: Tables)

  predicate Allowed(b: Books, e: Entry) {
    match e
    case OpenRun(id, _) => id !in b.s.tables.runs
    case OpenJob(id, job) => id !in b.s.tables.jobs && job.runId in b.s.tables.runs
    case Sample(_, _, _) => true
    case Elsewhere(_, kind, _, t) => (
      && !kind.CostDelta? && t.costs == b.s.tables.costs
      && t.runs.Keys == b.s.tables.runs.Keys && t.jobs.Keys == b.s.tables.jobs.Keys
      && (forall r :: r in t.runs ==> t.runs[r].cost == b.s.tables.runs[r].cost)
      && (forall j :: j in t.jobs ==>
            t.jobs[j].cost == b.s.tables.jobs[j].cost && t.jobs[j].runId == b.s.tables.jobs[j].runId))
  }

  function Posted(b: Books, e: Entry): Books {
    match e
    case OpenRun(id, run) =>
      Books(Commit(b.s, id, RunCreated, "", (t: Tables) => Some(t.(runs := t.runs[id := run]))),
            b.runs0[id := run.cost], b.jobs0)
    case OpenJob(id, job) =>
      Books(Commit(b.s, job.runId, JobCreated, id, (t: Tables) => Some(t.(jobs := t.jobs[id := job]))),
            b.runs0, b.jobs0[id := job.cost])
    case Sample(runId, jobId, usd) => Books(Charge(b.s, runId, jobId, usd), b.runs0, b.jobs0)
    case Elsewhere(runId, kind, subject, tables) =>
      Books(Commit(b.s, runId, kind, subject, t => Some(tables)), b.runs0, b.jobs0)
  }

  ghost predicate Kept(bs: seq<Books>, es: seq<Entry>) {
    && |bs| == |es| + 1
    && bs[0] == Books(State([], Tables(map[], map[], map[], map[], [])), map[], map[])
    && forall k :: 0 <= k < |es| ==> Follows(bs[k], es[k], bs[k + 1])
  }

  ghost predicate Follows(b: Books, e: Entry, next: Books) {
    Allowed(b, e) && next == Posted(b, e)
  }

  /** Every total is its opening balance and the rows since. */
  ghost predicate Balanced(b: Books) {
    && b.runs0.Keys == b.s.tables.runs.Keys && b.jobs0.Keys == b.s.tables.jobs.Keys
    && (forall r :: r in b.runs0 ==> b.s.tables.runs[r].cost == b.runs0[r] + Sum(b.s.tables.costs, OfRun(r)))
    && (forall j :: j in b.jobs0 ==> b.s.tables.jobs[j].cost == b.jobs0[j] + Sum(b.s.tables.costs, OfJob(j)))
    && (forall k :: 0 <= k < |b.s.tables.costs| ==>
          b.s.tables.costs[k].runId in b.runs0 && b.s.tables.costs[k].jobId in b.jobs0)
  }

  /** The log's cumulative figures are the prefix sums of the rows. */
  ghost predicate Reported(b: Books) {
    forall r :: r in b.runs0 ==> RunReported(DeltasOf(b.s.log, r), RowsOf(b.s.tables.costs, r), r, b.runs0[r])
  }

  ghost predicate RunReported(deltas: seq<Kind>, rows: seq<CostRow>, runId: Id, opening: real) {
    && |deltas| == |rows|
    && forall k :: 0 <= k < |deltas| ==>
      DeltaRight(deltas[k], rows[k].usd, opening + Sum(rows[..k + 1], OfRun(runId)))
  }

  predicate DeltaRight(delta: Kind, usd: real, cumulative: real) {
    delta.CostDelta? && delta.usd == usd && delta.cumulative == cumulative
  }

  ghost predicate Silent(b: Books) {
    forall r :: r !in b.runs0 ==> DeltasOf(b.s.log, r) == [] && RowsOf(b.s.tables.costs, r) == []
  }

  lemma BalancedKept(b: Books, e: Entry)
    requires Balanced(b) && Allowed(b, e)
    ensures Balanced(Posted(b, e))
  {
    hide Appended, Sum;
    if e.Sample? {
      forall filter: Filter
        ensures Sum(b.s.tables.costs + [CostRow(e.runId, e.jobId, e.usd)], filter)
             == Sum(b.s.tables.costs, filter) + if Selects(filter, CostRow(e.runId, e.jobId, e.usd)) then e.usd else 0.0
      {
        SumMore(b.s.tables.costs, CostRow(e.runId, e.jobId, e.usd), filter);
      }
    }
    if e.OpenRun? {
      NoRowsYet(b.s.tables.costs, OfRun(e.id));
    }
    if e.OpenJob? {
      NoRowsYet(b.s.tables.costs, OfJob(e.id));
    }
  }

  lemma {:induction false} NoRowsYet(costs: seq<CostRow>, filter: Filter)
    requires forall k :: 0 <= k < |costs| ==> !Selects(filter, costs[k])
    ensures Sum(costs, filter) == 0.0
  {
    if costs != [] {
      NoRowsYet(costs[..|costs| - 1], filter);
    }
  }

  lemma RunReportedMore(deltas: seq<Kind>, rows: seq<CostRow>, runId: Id, opening: real, delta: Kind, row: CostRow)
    requires RunReported(deltas, rows, runId, opening) && row.runId == runId
    requires DeltaRight(delta, row.usd, opening + Sum(rows, OfRun(runId)) + row.usd)
    ensures RunReported(deltas + [delta], rows + [row], runId, opening)
  {
    hide DeltaRight, Sum;
    SumMore(rows, row, OfRun(runId));
    assert (rows + [row])[..|rows| + 1] == rows + [row];
    forall k | 0 <= k < |deltas| + 1
      ensures DeltaRight((deltas + [delta])[k], (rows + [row])[k].usd,
                         opening + Sum((rows + [row])[..k + 1], OfRun(runId)))
    {
      if k < |deltas| {
        assert (rows + [row])[..k + 1] == rows[..k + 1];
      }
    }
  }

  lemma ReportedKept(b: Books, e: Entry)
    requires Balanced(b) && Reported(b) && Silent(b) && Allowed(b, e)
    ensures Reported(Posted(b, e)) && Silent(Posted(b, e))
  {
    hide Appended, Sum, DeltasOf, RowsOf, RunReported;
    var next := Posted(b, e);
    forall r
      ensures r in next.runs0 ==> RunReported(DeltasOf(next.s.log, r), RowsOf(next.s.tables.costs, r), r, next.runs0[r])
      ensures r !in next.runs0 ==> DeltasOf(next.s.log, r) == [] && RowsOf(next.s.tables.costs, r) == []
    {
      RunKept(b, e, r);
    }
  }

  lemma RunKept(b: Books, e: Entry, r: Id)
    requires Balanced(b) && Reported(b) && Silent(b) && Allowed(b, e)
    ensures var next := Posted(b, e);
      && (r in next.runs0 ==> RunReported(DeltasOf(next.s.log, r), RowsOf(next.s.tables.costs, r), r, next.runs0[r]))
      && (r !in next.runs0 ==> DeltasOf(next.s.log, r) == [] && RowsOf(next.s.tables.costs, r) == [])
  {
    hide Appended, Sum, DeltasOf, RowsOf, RunReported;
    var deltas := DeltasOf(b.s.log, r);
    var rows := RowsOf(b.s.tables.costs, r);
    assert deltas + [] == deltas && rows + [] == rows;
    match e {
      case OpenRun(id, run) =>
        DeltasMore(b.s.log, id, RunCreated, "", r);
        if r == id {
          NothingReported(r, run.cost);
        }
      case OpenJob(id, job) =>
        DeltasMore(b.s.log, job.runId, JobCreated, id, r);
      case Elsewhere(runId, kind, subject, tables) =>
        DeltasMore(b.s.log, runId, kind, subject, r);
      case Sample(runId, jobId, usd) =>
        if runId in b.s.tables.runs && jobId in b.s.tables.jobs {
          var row := CostRow(runId, jobId, usd);
          DeltasMore(b.s.log, runId, DeltaFor(b.s.tables, runId, usd), jobId, r);
          RowsMore(b.s.tables.costs, row, r);
          if r == runId {
            RowsSum(b.s.tables.costs, r);
            RunReportedMore(deltas, rows, r, b.runs0[r], DeltaFor(b.s.tables, runId, usd), row);
          }
        }
    }
  }

  lemma NothingReported(runId: Id, opening: real)
    ensures RunReported([], [], runId, opening)
  {
  }

  /** In every state the books can reach, totals, rows and cumulative figures agree. */
  lemma {:induction false} BooksBalance(bs: seq<Books>, es: seq<Entry>, k: nat)
    requires Kept(bs, es) && k < |bs|
    ensures Balanced(bs[k]) && Reported(bs[k]) && Silent(bs[k])
  {
    if k > 0 {
      BooksBalance(bs, es, k - 1);
      hide Balanced, Reported, Silent, Allowed, Posted;
      assert Follows(bs[k - 1], es[k - 1], bs[k - 1 + 1]);
      BalancedKept(bs[k - 1], es[k - 1]);
      ReportedKept(bs[k - 1], es[k - 1]);
    }
  }

  // ---- Runs against their jobs ----

  function SumJobs(costs: seq<CostRow>, ids: seq<Id>): real {
    if ids == [] then 0.0 else SumJobs(costs, ids[..|ids| - 1]) + Sum(costs, OfJob(ids[|ids| - 1]))
  }

  lemma {:induction false} SumJobsMore(costs: seq<CostRow>, row: CostRow, ids: seq<Id>)
    requires forall i, j :: 0 <= i < j < |ids| ==> ids[i] != ids[j]
    ensures SumJobs(costs + [row], ids) == SumJobs(costs, ids) + if row.jobId in ids then row.usd else 0.0
  {
    hide Sum;
    if ids != [] {
      var last := ids[|ids| - 1];
      SumJobsMore(costs, row, ids[..|ids| - 1]);
      SumMore(costs, row, OfJob(last));
      assert row.jobId in ids <==> row.jobId in ids[..|ids| - 1] || row.jobId == last;
      assert last !in ids[..|ids| - 1];
    }
  }

  lemma {:induction false} SumJobsNothing(ids: seq<Id>)
    ensures SumJobs([], ids) == 0.0
  {
    if ids != [] {
      SumJobsNothing(ids[..|ids| - 1]);
    }
  }

  /** What a run's jobs add up to differs from the run's own sum by exactly what leaked to other runs' jobs and what
      was borrowed from other runs. */
  lemma {:induction false} Attribution(costs: seq<CostRow>, runId: Id, home: map<Id, Id>, ids: seq<Id>)
    requires Lists(ids, set j | j in home && home[j] == runId)
    ensures SumJobs(costs, ids)
         == Sum(costs, OfRun(runId)) - Sum(costs, Leaked(runId, home)) + Sum(costs, Borrowed(runId, home))
  {
    if costs == [] {
      SumJobsNothing(ids);
    } else {
      var front := costs[..|costs| - 1];
      var last := costs[|costs| - 1];
      Attribution(front, runId, home, ids);
      SumJobsMore(front, last, ids);
      assert costs == front + [last];
      assert last.jobId in ids <==> last.jobId in home && home[last.jobId] == runId;
    }
  }

  /** The run each job was created for. */
  function HomeOf(t: Tables): map<Id, Id> {
    map j | j in t.jobs :: t.jobs[j].runId
  }

  function JobsOf(t: Tables, runId: Id): set<Id> {
    set j | j in t.jobs && t.jobs[j].runId == runId
  }

  /** How much the stored totals of the jobs have grown since they were opened. */
  function Gained(b: Books, ids: seq<Id>): real
    requires forall j :: j in ids ==> j in b.s.tables.jobs && j in b.jobs0
  {
    if ids == [] then 0.0
    else
      var last := ids[|ids| - 1];
      Gained(b, ids[..|ids| - 1]) + (b.s.tables.jobs[last].cost - b.jobs0[last])
  }

  lemma {:induction false} GainedIsRows(b: Books, ids: seq<Id>)
    requires Balanced(b) && forall j :: j in ids ==> j in b.s.tables.jobs
    ensures Gained(b, ids) == SumJobs(b.s.tables.costs, ids)
  {
    hide Sum;
    if ids != [] {
      GainedIsRows(b, ids[..|ids| - 1]);
    }
  }

  ghost predicate AtHome(t: Tables) {
    forall k :: 0 <= k < |t.costs| ==>
      t.costs[k].jobId in t.jobs && t.jobs[t.costs[k].jobId].runId == t.costs[k].runId
  }

  /** In every reachable state, the stored totals of a run's jobs have grown by what the run's own total has, less what
      leaked to jobs of other runs and plus what was borrowed; by exactly that when every sample names its job's own
      run. */
  lemma JobsAddUp(bs: seq<Books>, es: seq<Entry>, k: nat, runId: Id, ids: seq<Id>)
    requires Kept(bs, es) && k < |bs| && runId in bs[k].s.tables.runs
    requires Lists(ids, JobsOf(bs[k].s.tables, runId))
    ensures runId in bs[k].runs0 && forall j :: j in ids ==> j in bs[k].s.tables.jobs && j in bs[k].jobs0
    ensures var b, t := bs[k], bs[k].s.tables;
      && Gained(b, ids) == t.runs[runId].cost - b.runs0[runId]
           - Sum(t.costs, Leaked(runId, HomeOf(t))) + Sum(t.costs, Borrowed(runId, HomeOf(t)))
      && (AtHome(t) ==> Gained(b, ids) == t.runs[runId].cost - b.runs0[runId])
  {
    hide Sum, Kept, Reported, Silent;
    BooksBalance(bs, es, k);
    var b, t := bs[k], bs[k].s.tables;
    var home := HomeOf(t);
    assert (set j | j in home && home[j] == runId) == JobsOf(t, runId);
    GainedIsRows(b, ids);
    Attribution(t.costs, runId, home, ids);
    if AtHome(t) {
      NoRowsYet(t.costs, Leaked(runId, home));
      NoRowsYet(t.costs, Borrowed(runId, home));
    }
  }
}
