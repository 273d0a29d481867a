/** One job dispatched with supervisor retries: the attempts, the jobs and events they leave, and how it can end.
    Writes to the store succeed here; the code only logs most of their failures. */
module Dispatcher {
  import opened Options
  import opened Store
  import Supervisor

  const DEFAULT_MAX_RETRIES := 3

  function MaxRetries(configured: int): (max: nat)
    ensures configured < 0 ==> max == 0
    ensures configured == 0 ==> max == 3
    ensures configured > 0 ==> max == configured
  {
    if configured < 0 then 0 else if configured == 0 then DEFAULT_MAX_RETRIES else configured
  }

  // ---- Runs and jobs ----

  class JobStore {
    const db: Database

    constructor (db: Database)
      ensures this.db == db
    {
      this.db := db;
    }

    method CreateRun(runId: Id) returns (ok: bool)
      modifies db
      ensures ok <==> old(runId !in db.tables.runs)
      ensures !ok ==> db.Current() == old(db.Current())
      ensures ok ==> db.tables == old(db.tables.(runs := db.tables.runs[runId := Run(RunActive, 0.0, None)]))
      ensures ok ==> Logged(old(db.log), db.log, [Entry(runId, RunCreated, "")])
    {
      ok := db.WriteEventThenRow(runId, RunCreated, "", (t: Tables) =>
        if runId in t.runs then None else Some(t.(runs := t.runs[runId := Run(RunActive, 0.0, None)])));
    }

    method CompleteRun(runId: Id, state: RunState)
      requires runId in db.tables.runs
      modifies db
      ensures db.tables == old(db.tables.(runs := db.tables.runs[runId := db.tables.runs[runId].(state := state)]))
      ensures Logged(old(db.log), db.log, [Entry(runId, RunCompleted, "")])
    {
      var ok := db.WriteEventThenRow(runId, RunCompleted, "", (t: Tables) =>
        if runId in t.runs then Some(t.(runs := t.runs[runId := t.runs[runId].(state := state)])) else Some(t));
    }

    method CreateJob(jobId: Id, job: Job) returns (ok: bool)
      modifies db
      ensures ok <==> old(jobId !in db.tables.jobs && job.runId in db.tables.runs)
      ensures !ok ==> db.Current() == old(db.Current())
      ensures ok ==> db.tables == old(db.tables.(jobs := db.tables.jobs[jobId := job]))
      ensures ok ==> Logged(old(db.log), db.log, [Entry(job.runId, JobCreated, jobId)])
    {
      ok := db.WriteEventThenRow(job.runId, JobCreated, jobId, (t: Tables) =>
        if jobId in t.jobs || job.runId !in t.runs then None else Some(t.(jobs := t.jobs[jobId := job])));
    }

    method UpdateJobState(jobId: Id, state: JobState)
      requires jobId in db.tables.jobs && state != JobPending
      modifies db
      ensures db.tables == old(db.tables.(jobs := db.tables.jobs[jobId := db.tables.jobs[jobId].(state := state)]))
      ensures Logged(old(db.log), db.log, [Entry(old(db.tables.jobs[jobId].runId), KindFor(state), jobId)])
    {
      var runId := db.tables.jobs[jobId].runId;
      var ok := db.WriteEventThenRow(runId, KindFor(state), jobId, (t: Tables) =>
        if jobId in t.jobs then Some(t.(jobs := t.jobs[jobId := t.jobs[jobId].(state := state)])) else Some(t));
    }
  }

  function KindFor(state: JobState): Kind
    requires state != JobPending
  {
    match state
    case JobComplete => JobCompleted
    case JobFailure => JobFailed
    case JobDispatched => JobLeased
  }

  /** A log entry without its number. */
  datatype Entry = Entry(runId: Id, kind: Kind, subject: Id)

  ghost predicate Logged(before: seq<Event>, after: seq<Event>, entries: seq<Entry>) {
    && |after| == |before| + |entries| && before <= after
    && EntriesOf(after[|before|..]) == entries
  }

  function EntriesOf(events: seq<Event>): (entries: seq<Entry>)
    ensures |entries| == |events|
  {
    if events == [] then []
    else
      var last := events[|events| - 1];
      EntriesOf(events[..|events| - 1]) + [Entry(last.runId, last.kind, last.subject)]
  }

  lemma {:induction false} EntriesJoin(a: seq<Event>, b: seq<Event>)
    ensures EntriesOf(a + b) == EntriesOf(a) + EntriesOf(b)
  {
    if b == [] {
      assert a + b == a;
    } else {
      assert (a + b)[..|a + b| - 1] == a + b[..|b| - 1];
      EntriesJoin(a, b[..|b| - 1]);
    }
  }

  lemma LoggedThen(a: seq<Event>, b: seq<Event>, c: seq<Event>, first: seq<Entry>, second: seq<Entry>)
    requires Logged(a, b, first) && Logged(b, c, second)
    ensures Logged(a, c, first + second)
  {
    assert c[|a|..] == b[|a|..] + c[|b|..];
    EntriesJoin(b[|a|..], c[|b|..]);
  }

  // ---- Attempts ----

  /** What happens to one attempt: the permission check, the agent's start, its exit code unless waiting for it fails,
      and the supervisor's judgement if there is a supervisor. */
  datatype Happening = Happening(permitted: bool, dispatched: bool, exit: Option<int>,
                                 judged: Option<Supervisor.Attempt<Supervisor.Verdict>>)

  datatype Tried = Tried(jobId: Id, prompt: string, what: Happening)

  datatype Reason = RoleMissing | InputMissing(name: string) | PromptFailed | Cancelled | JobRefused
                  | Denied | DispatchFailed | WaitFailed | EvalFailed

  datatype Fate = Broke(reason: Reason) | Again(verdict: Supervisor.Verdict) | Final

  function FateOf(what: Happening, attempt: nat, maxRetries: nat): Fate {
    if !what.permitted then Broke(Denied)
    else if !what.dispatched then Broke(DispatchFailed)
    else if what.exit.None? then Broke(WaitFailed)
    else match what.judged
         case None => Final
         case Some(Error(_)) => Broke(EvalFailed)
         case Some(Ok(verdict)) => if verdict.pass || attempt >= maxRetries then Final else Again(verdict)
  }

  /** The supervisor judged the attempt and failed it. */
  predicate Failing(what: Happening) {
    what.judged.Some? && what.judged.value.Ok? && !what.judged.value.value.pass
  }

  function DispatchedBy(attempt: nat): string {
    if attempt > 0 then "supervisor-retry" else "user"
  }

  function RetryPrompt(verdict: Supervisor.Verdict, original: string): string {
    Supervisor.RetryFeedback(verdict) + "\n\n" + original
  }

  /** The entries one attempt writes before its fate is settled by the caller. */
  function AttemptEntries(runId: Id, x: Tried, attempt: nat, maxRetries: nat): seq<Entry> {
    [Entry(runId, JobCreated, x.jobId), Entry(runId, JobLeased, x.jobId)] + LastEntries(runId, x, attempt, maxRetries)
  }

  function LastEntries(runId: Id, x: Tried, attempt: nat, maxRetries: nat): seq<Entry> {
    match FateOf(x.what, attempt, maxRetries)
    case Broke(_) => [Entry(runId, JobFailed, x.jobId)]
    case Again(verdict) =>
      [Entry(runId, JobFailed, x.jobId),
       Entry(runId, SupervisorRetry(attempt + 1, Supervisor.RetryFeedback(verdict),
         Supervisor.FailedOf(verdict.results)),
             x.jobId)]
    case Final =>
      if Failing(x.what) then
        [Entry(runId, ComplianceBreach(Supervisor.FailedOf(x.what.judged.value.value.results), attempt + 1), x.jobId)]
      else []
  }

  /** Failed jobs are settled by the attempt itself; a final one is left for the caller. */
  function StateLeft(fate: Fate): JobState {
    if fate.Final? then JobDispatched else JobFailure
  }

  method OpenJob(store: JobStore, runId: Id, role: string, jobId: Id, attempt: nat)
    requires jobId !in store.db.tables.jobs && runId in store.db.tables.runs
    modifies store.db
    ensures store.db.tables == old(store.db.tables).(jobs :=
      old(store.db.tables.jobs)[jobId := Job(runId, role, JobDispatched, DispatchedBy(attempt), 0.0)])
    ensures Logged(old(store.db.log), store.db.log, [Entry(runId, JobCreated, jobId), Entry(runId, JobLeased, jobId)])
  {
    hide Logged;
    var created := store.CreateJob(jobId, Job(runId, role, JobPending, DispatchedBy(attempt), 0.0));
    ghost var mid := store.db.log;
    store.UpdateJobState(jobId, JobDispatched);
    LoggedThen(old(store.db.log), mid, store.db.log, [Entry(runId, JobCreated, jobId)],
      [Entry(runId, JobLeased, jobId)]);
    assert [Entry(runId, JobCreated, jobId)] + [Entry(runId, JobLeased, jobId)]
        == [Entry(runId, JobCreated, jobId), Entry(runId, JobLeased, jobId)];
  }

  method ExecuteAttempt(store: JobStore, runId: Id, role: string, x: Tried, original: string, attempt: nat,
                        maxRetries: nat)
    returns (fate: Fate, nextPrompt: string)
    requires x.jobId !in store.db.tables.jobs && runId in store.db.tables.runs
    modifies store.db
    ensures fate == FateOf(x.what, attempt, maxRetries)
    ensures fate.Again? ==> nextPrompt == RetryPrompt(fate.verdict, original)
    ensures fate.Again? ==>
      Supervisor.Answers(nextPrompt, Supervisor.FailedOf(fate.verdict.results), original)
    ensures store.db.tables == old(store.db.tables).(jobs :=
      old(store.db.tables.jobs)[x.jobId := Job(runId, role, StateLeft(fate), DispatchedBy(attempt), 0.0)])
    ensures Logged(old(store.db.log), store.db.log, AttemptEntries(runId, x, attempt, maxRetries))
  {
    hide Logged, Supervisor.RetryFeedback, Supervisor.FailedOf, Supervisor.Answers;
    nextPrompt := "";
    var db := store.db;
    ghost var log0 := db.log;
    var jobId := x.jobId;
    OpenJob(store, runId, role, jobId, attempt);
    ghost var log2 := db.log;
    ghost var start := [Entry(runId, JobCreated, jobId), Entry(runId, JobLeased, jobId)];
    assert start + LastEntries(runId, x, attempt, maxRetries) == AttemptEntries(runId, x, attempt, maxRetries);
    fate := FateOf(x.what, attempt, maxRetries);
    if fate.Broke? {
      store.UpdateJobState(jobId, JobFailure);
      LoggedThen(log0, log2, db.log, start, [Entry(runId, JobFailed, jobId)]);
      return;
    }
    if fate.Again? {
      store.UpdateJobState(jobId, JobFailure);
      ghost var log3 := db.log;
      LoggedThen(log0, log2, log3, start, [Entry(runId, JobFailed, jobId)]);
      var feedback := Supervisor.BuildRetryFeedback(fate.verdict);
      var failed := Supervisor.FailedMessages(fate.verdict);
      Note(db, runId, SupervisorRetry(attempt + 1, feedback, failed), jobId);
      LoggedThen(log0, log3, db.log, start + [Entry(runId, JobFailed, jobId)],
                 [Entry(runId, SupervisorRetry(attempt + 1, feedback, failed), jobId)]);
      assert start + [Entry(runId, JobFailed, jobId)]
        + [Entry(runId, SupervisorRetry(attempt + 1, feedback, failed), jobId)]
          == start + LastEntries(runId, x, attempt, maxRetries);
      nextPrompt := feedback + "\n\n" + original;
      Supervisor.RetryPromptSays(fate.verdict, original);
      return;
    }
    if Failing(x.what) {
      var failed := Supervisor.FailedMessages(x.what.judged.value.value);
      Note(db, runId, ComplianceBreach(failed, attempt + 1), jobId);
      LoggedThen(log0, log2, db.log, start, [Entry(runId, ComplianceBreach(failed, attempt + 1), jobId)]);
    } else {
      assert start + [] == start;
    }
  }

  /** An event with no projection. */
  method Note(db: Database, runId: Id, kind: Kind, subject: Id)
    modifies db
    ensures db.tables == old(db.tables)
    ensures Logged(old(db.log), db.log, [Entry(runId, kind, subject)])
  {
    var ok := db.WriteEventThenRow(runId, kind, subject, t => Some(t));
  }

  // ---- A whole dispatch ----

  datatype Role = Role(name: string, required: seq<string>)

  /** The role unless it cannot be loaded, the inputs given, the run to attach to, and the prompt unless it cannot be
      rendered. */
  datatype Request = Request(role: Option<Role>, inputs: set<string>, attached: Option<Id>, prompt: Option<string>)

  /** Cancellation as seen before each attempt, what happens to each attempt under its prompt, and fresh ids. */
  datatype Surroundings = Surroundings(cancelled: nat -> bool, happens: (nat, string) -> Happening,
                                       jobIds: nat -> Id, runId: Id)

  datatype Outcome =
    | Delivered(jobId: Id, exit: int, verdict: Option<Supervisor.Verdict>, retries: nat)
    | Refused(reason: Reason)

  /** The attempts made, in order: every one but the last was failed by the supervisor and answered by the next. */
  ghost predicate Story(tried: seq<Tried>, around: Surroundings, original: string, maxRetries: nat) {
    && |tried| <= maxRetries + 1
    && (forall k :: 0 <= k < |tried| ==> (
          && tried[k].jobId == around.jobIds(k) && !around.cancelled(k)
          && tried[k].what == around.happens(k, tried[k].prompt)))
    && (tried != [] ==> tried[0].prompt == original)
    && (forall k :: 0 <= k < |tried| - 1 ==> (
          && FateOf(tried[k].what, k, maxRetries).Again?
          && tried[k + 1].prompt == RetryPrompt(FateOf(tried[k].what, k, maxRetries).verdict, original)))
  }

  function JobsAfter(jobs: map<Id, Job>, runId: Id, role: string, tried: seq<Tried>, last: JobState): map<Id, Job> {
    if tried == [] then jobs
    else
      var n := |tried| - 1;
      JobsAfter(jobs, runId, role, tried[..n], JobFailure)[tried[n].jobId :=
        Job(runId, role, last, DispatchedBy(n), 0.0)]
  }

  function StoryEntries(runId: Id, tried: seq<Tried>, maxRetries: nat): seq<Entry> {
    if tried == [] then []
    else
      var n := |tried| - 1;
      StoryEntries(runId, tried[..n], maxRetries) + AttemptEntries(runId, tried[n], n, maxRetries)
  }

  /** The job ends well when the agent does and no verdict objects. */
  function Settled(what: Happening): JobState
    requires what.exit.Some?
  {
    if what.exit.value != 0 || Failing(what) then JobFailure else JobComplete
  }

  ghost predicate FreshIds(around: Surroundings, t: Tables) {
    && (forall k :: around.jobIds(k) !in t.jobs)
    && (forall i, j :: i != j ==> around.jobIds(i) != around.jobIds(j))
    && around.runId !in t.runs
  }

  datatype LoopEnd = Finished | Stopped(reason: Reason)

  /** How the attempts came to their end. */
  ghost predicate EndsWith(tried: seq<Tried>, around: Surroundings, maxRetries: nat, end: LoopEnd) {
    match end
    case Finished => tried != [] && FateOf(tried[|tried| - 1].what, |tried| - 1, maxRetries).Final?
    case Stopped(Cancelled) => (
      && around.cancelled(|tried|) && |tried| <= maxRetries
      && (tried != [] ==> FateOf(tried[|tried| - 1].what, |tried| - 1, maxRetries).Again?))
    case Stopped(reason) => tried != [] && FateOf(tried[|tried| - 1].what, |tried| - 1, maxRetries) == Broke(reason)
  }

  lemma {:induction false} JobKeys(jobs: map<Id, Job>, runId: Id, role: string, tried: seq<Tried>, last: JobState,
                                   id: Id)
    requires forall k :: 0 <= k < |tried| ==> tried[k].jobId != id
    ensures id in JobsAfter(jobs, runId, role, tried, last) <==> id in jobs
    ensures id in jobs ==> JobsAfter(jobs, runId, role, tried, last)[id] == jobs[id]
  {
    if tried != [] {
      JobKeys(jobs, runId, role, tried[..|tried| - 1], JobFailure, id);
    }
  }

  /** The next prompt: the original, or the answer to the verdict just given. */
  ghost predicate Awaits(tried: seq<Tried>, prompt: string, original: string, maxRetries: nat) {
    if tried == [] then prompt == original
    else
      var fate := FateOf(tried[|tried| - 1].what, |tried| - 1, maxRetries);
      fate.Again? && prompt == RetryPrompt(fate.verdict, original)
  }

  lemma StoryMore(tried: seq<Tried>, around: Surroundings, original: string, maxRetries: nat, x: Tried)
    requires Story(tried, around, original, maxRetries) && |tried| <= maxRetries
    requires x.jobId == around.jobIds(|tried|) && !around.cancelled(|tried|)
    requires x.what == around.happens(|tried|, x.prompt)
    requires Awaits(tried, x.prompt, original, maxRetries)
    ensures Story(tried + [x], around, original, maxRetries)
  {
    hide FateOf, RetryPrompt;
  }

  lemma NextIdFresh(jobs: map<Id, Job>, runId: Id, role: string, tried: seq<Tried>, around: Surroundings,
                    original: string, maxRetries: nat, t: Tables)
    requires FreshIds(around, t.(jobs := jobs)) && Story(tried, around, original, maxRetries)
    ensures around.jobIds(|tried|) !in JobsAfter(jobs, runId, role, tried, JobFailure)
  {
    StoryIds(tried, around, original, maxRetries);
    JobKeys(jobs, runId, role, tried, JobFailure, around.jobIds(|tried|));
  }

  lemma Recorded(jobs: map<Id, Job>, runId: Id, role: string, tried: seq<Tried>, x: Tried, last: JobState, max: nat)
    ensures JobsAfter(jobs, runId, role, tried + [x], last)
         == JobsAfter(jobs, runId, role, tried, JobFailure)[x.jobId :=
           Job(runId, role, last, DispatchedBy(|tried|), 0.0)]
    ensures StoryEntries(runId, tried + [x], max) ==
      StoryEntries(runId, tried, max) + AttemptEntries(runId, x, |tried|, max)
  {
    assert (tried + [x])[..|tried|] == tried;
  }

  lemma NothingDone(log: seq<Event>, jobs: map<Id, Job>, runId: Id, role: string, max: nat)
    ensures Logged(log, log, StoryEntries(runId, [], max)) && Logged(log, log, StoryEntries(runId, [], max) + [])
    ensures forall last :: JobsAfter(jobs, runId, role, [], last) == jobs
  {
  }

  /** The retry loop. */
  method RunAttempts(store: JobStore, runId: Id, role: string, original: string, around: Surroundings, maxRetries: nat)
    returns (end: LoopEnd, ghost tried: seq<Tried>, last: Tried, retries: nat)
    requires FreshIds(around, store.db.tables.(runs := map[])) && runId in store.db.tables.runs
    modifies store.db
    ensures Story(tried, around, original, maxRetries) && EndsWith(tried, around, maxRetries, end)
    ensures end.Finished? ==> last == tried[|tried| - 1] && retries == |tried| - 1
    ensures store.db.tables == old(store.db.tables).(jobs := JobsAfter(old(store.db.tables.jobs), runId, role, tried,
      if end.Finished? then JobDispatched else JobFailure))
    ensures Logged(old(store.db.log), store.db.log, StoryEntries(runId, tried, maxRetries))
  {
    hide Supervisor.Answers, Logged, FateOf, AttemptEntries, RetryPrompt, Story, StoryEntries, JobsAfter, FreshIds;
    hide DispatchedBy;
    var db := store.db;
    ghost var before := db.tables;
    ghost var log0 := db.log;
    tried := [];
    last := Tried("", "", Happening(false, false, None, None));
    var prompt := original;
    StoryStarts(around, original, maxRetries);
    NothingDone(log0, before.jobs, runId, role, maxRetries);
    retries := 0;
    var attempt := 0;
    while attempt <= maxRetries
      invariant attempt == retries == |tried| <= maxRetries + 1
      invariant Story(tried, around, original, maxRetries)
      invariant Awaits(tried, prompt, original, maxRetries)
      invariant db.tables == before.(jobs := JobsAfter(before.jobs, runId, role, tried, JobFailure))
      invariant Logged(log0, db.log, StoryEntries(runId, tried, maxRetries))
    {
      if around.cancelled(attempt) {
        return Stopped(Cancelled), tried, last, retries;
      }
      last := Tried(around.jobIds(attempt), prompt, around.happens(attempt, prompt));
      NextIdFresh(before.jobs, runId, role, tried, around, original, maxRetries, before.(runs := map[]));
      ghost var mid := db.log;
      var fate, nextPrompt := ExecuteAttempt(store, runId, role, last, original, attempt, maxRetries);
      LoggedThen(log0, mid, db.log, StoryEntries(runId, tried, maxRetries),
        AttemptEntries(runId, last, attempt, maxRetries));
      StoryMore(tried, around, original, maxRetries, last);
      Recorded(before.jobs, runId, role, tried, last, StateLeft(fate), maxRetries);
      tried := tried + [last];
      if fate.Broke? {
        FateReasons(last.what, attempt, maxRetries);
        return Stopped(fate.reason), tried, last, retries;
      }
      if fate.Final? {
        return Finished, tried, last, retries;
      }
      prompt, retries := nextPrompt, retries + 1;
      attempt := attempt + 1;
    }
    NoRetryLeft(tried[|tried| - 1].what, |tried| - 1, maxRetries);
    assert false;
  }

  lemma StoryStarts(around: Surroundings, original: string, maxRetries: nat)
    ensures Story([], around, original, maxRetries)
  {
  }

  lemma StoryIds(tried: seq<Tried>, around: Surroundings, original: string, maxRetries: nat)
    requires Story(tried, around, original, maxRetries)
    ensures forall k :: 0 <= k < |tried| ==> tried[k].jobId == around.jobIds(k)
  {
  }

  lemma FateReasons(what: Happening, attempt: nat, maxRetries: nat)
    ensures FateOf(what, attempt, maxRetries).Broke? ==>
      FateOf(what, attempt, maxRetries).reason in {Denied, DispatchFailed, WaitFailed, EvalFailed}
  {
  }

  lemma NoRetryLeft(what: Happening, attempt: nat, maxRetries: nat)
    ensures FateOf(what, attempt, maxRetries).Again? ==> attempt < maxRetries
  {
  }

  /** The k-th attempt's job, as the dispatch leaves it. */
  lemma {:induction false} JobSettled(jobs: map<Id, Job>, runId: Id, role: string, tried: seq<Tried>, last: JobState,
                                      k: nat)
    requires forall i, j :: 0 <= i < j < |tried| ==> tried[i].jobId != tried[j].jobId
    requires k < |tried|
    ensures var after := JobsAfter(jobs, runId, role, tried, last);
      && tried[k].jobId in after
      && after[tried[k].jobId] == Job(runId, role, if k < |tried| - 1 then JobFailure else last,
                                      if k == 0 then "user" else "supervisor-retry", 0.0)
  {
    if k < |tried| - 1 {
      JobSettled(jobs, runId, role, tried[..|tried| - 1], JobFailure, k);
    }
  }

  lemma {:induction false} JobsKnown(jobs: map<Id, Job>, runId: Id, role: string, tried: seq<Tried>, last: JobState,
                                     id: Id)
    returns (k: nat)
    requires id in JobsAfter(jobs, runId, role, tried, last) && id !in jobs
    ensures k < |tried| && tried[k].jobId == id
  {
    hide DispatchedBy;
    k := |tried| - 1;
    if tried[k].jobId != id {
      k := JobsKnown(jobs, runId, role, tried[..k], JobFailure, id);
    }
  }

  /** Whichever way the loop ends, each job it created is settled once the caller has settled a final one. */
  lemma NoJobLeftOpen(jobs: map<Id, Job>, runId: Id, role: string, tried: seq<Tried>, around: Surroundings,
                      original: string, maxRetries: nat, last: JobState, id: Id)
    requires Story(tried, around, original, maxRetries)
    requires forall k :: around.jobIds(k) !in jobs
    requires forall i, j :: i != j ==> around.jobIds(i) != around.jobIds(j)
    requires last == JobComplete || last == JobFailure
    requires id in JobsAfter(jobs, runId, role, tried, last) && id !in jobs
    ensures JobsAfter(jobs, runId, role, tried, last)[id].state in {JobComplete, JobFailure}
  {
    hide JobsAfter, Story;
    StoryIds(tried, around, original, maxRetries);
    var k := JobsKnown(jobs, runId, role, tried, last, id);
    JobSettled(jobs, runId, role, tried, last, k);
  }

  // ---- The dispatch ----

  function RunFor(req: Request, around: Surroundings): Id {
    if req.attached.Some? then req.attached.value else around.runId
  }

  /** What a dispatch reports about its last attempt. */
  ghost predicate Reports(out: Outcome, tried: seq<Tried>, max: nat) {
    match out
    case Delivered(jobId, exit, verdict, retries) => (
      && retries + 1 == |tried| && jobId == tried[retries].jobId
      && tried[retries].what.exit == Some(exit)
      && (verdict.Some? <==> tried[retries].what.judged.Some?)
      && (verdict.Some? ==> tried[retries].what.judged == Some(Supervisor.Ok(verdict.value))))
    case Refused(_) => true
  }

  method MissingInput(required: seq<string>, inputs: set<string>) returns (missing: Option<string>)
    ensures missing.None? <==> forall k :: 0 <= k < |required| ==> required[k] in inputs
    ensures missing.Some? ==> missing.value in required && missing.value !in inputs
  {
    for k := 0 to |required|
      invariant forall j :: 0 <= j < k ==> required[j] in inputs
    {
      if required[k] !in inputs {
        return Some(required[k]);
      }
    }
    return None;
  }

  lemma JobsResettled(jobs: map<Id, Job>, runId: Id, role: string, tried: seq<Tried>, last: JobState)
    requires tried != []
    ensures var open := JobsAfter(jobs, runId, role, tried, JobDispatched);
      var id := tried[|tried| - 1].jobId;
      && id in open && open[id].runId == runId
      && open[id := open[id].(state := last)] == JobsAfter(jobs, runId, role, tried, last)
  {
  }

  /** What a dispatch tells: the ending matches the story. */
  ghost predicate Tells(out: Outcome, tried: seq<Tried>, around: Surroundings, original: string, max: nat) {
    && Story(tried, around, original, max)
    && (out.Delivered? ==> EndsWith(tried, around, max, Finished))
    && (out.Refused? && (tried != [] || out.reason == Cancelled) ==> EndsWith(tried, around, max, Stopped(out.reason)))
    && Reports(out, tried, max)
  }

  function LastState(out: Outcome, tried: seq<Tried>): JobState {
    if out.Delivered? && tried != [] && tried[|tried| - 1].what.exit.Some? then Settled(tried[|tried| - 1].what)
    else JobFailure
  }

  /** Attempts until one is final or something gives, then the last job's state. */
  method DispatchJobs(store: JobStore, runId: Id, role: string, original: string, around: Surroundings, max: nat)
    returns (out: Outcome, ghost tried: seq<Tried>, settled: JobState)
    requires FreshIds(around, store.db.tables.(runs := map[]))
    modifies store.db
    ensures Tells(out, tried, around, original, max) && settled == LastState(out, tried)
    ensures out.Refused? ==> out.reason in {Cancelled, JobRefused, Denied, DispatchFailed, WaitFailed, EvalFailed}
    ensures out == Refused(JobRefused) ==> old(runId !in store.db.tables.runs)
    ensures store.db.tables == old(store.db.tables).(jobs :=
      JobsAfter(old(store.db.tables.jobs), runId, role, tried, LastState(out, tried)))
    ensures Logged(old(store.db.log), store.db.log, JobEntries(runId, out, tried, max))
  {
    hide Logged, FateOf, Story, JobsAfter, AttemptEntries;
    var db := store.db;
    if runId !in db.tables.runs {
      tried := [];
      StoryStarts(around, original, max);
      NothingDone(db.log, db.tables.jobs, runId, role, max);
      return if around.cancelled(0) then Refused(Cancelled) else Refused(JobRefused), [], JobFailure;
    }
    ghost var log0 := db.log;
    ghost var jobs0 := db.tables.jobs;
    var end, last, retries;
    end, tried, last, retries := RunAttempts(store, runId, role, original, around, max);
    assert StoryEntries(runId, tried, max) + [] == StoryEntries(runId, tried, max);
    match end {
      case Stopped(reason) =>
        StopReasons(tried, around, max, reason);
        return Refused(reason), tried, JobFailure;
      case Finished =>
        ghost var log1 := db.log;
        FinalHasExit(last.what, |tried| - 1, max);
        JobsResettled(jobs0, runId, role, tried, Settled(last.what));
        store.UpdateJobState(last.jobId, Settled(last.what));
        LoggedThen(log0, log1, db.log, StoryEntries(runId, tried, max),
                   [Entry(runId, KindFor(Settled(last.what)), last.jobId)]);
        var judged := last.what.judged;
        var verdict := if judged.Some? && judged.value.Ok? then Some(judged.value.value) else None;
        return Delivered(last.jobId, last.what.exit.value, verdict, retries), tried, Settled(last.what);
    }
  }

  lemma StopReasons(tried: seq<Tried>, around: Surroundings, max: nat, reason: Reason)
    requires EndsWith(tried, around, max, Stopped(reason))
    ensures reason in {Cancelled, Denied, DispatchFailed, WaitFailed, EvalFailed}
  {
  }

  lemma FinalHasExit(what: Happening, attempt: nat, max: nat)
    ensures FateOf(what, attempt, max).Final? ==> what.exit.Some? && (what.judged.Some? ==> what.judged.value.Ok?)
  {
  }

  /** Attached work leaves the run alone; its own run is closed after every ending but two: a prompt that cannot be
      rendered and a cancellation leave it active for good. */
  ghost predicate RunAccount(req: Request, around: Surroundings, out: Outcome, before: map<Id, Run>,
                             after: map<Id, Run>) {
    if req.attached.Some? || EarlyRefusal(out) then after == before
    else after == before[around.runId := Run(RunStateAfter(out), 0.0, None)]
  }

  predicate EarlyRefusal(out: Outcome) {
    out.Refused? && (out.reason.RoleMissing? || out.reason.InputMissing?)
  }

  function RunStateAfter(out: Outcome): RunState {
    match out
    case Refused(PromptFailed) => RunActive
    case Refused(Cancelled) => RunActive
    case Refused(_) => RunFailed
    case Delivered(_, exit, verdict, _) =>
      if exit != 0 || (verdict.Some? && !verdict.value.pass) then RunFailed else RunDone
  }

  /** Everything a dispatch logs: its run's creation if it has its own, the story, the last job's end, and the run's
      completion unless the dispatch leaves it active. */
  function DispatchEntries(req: Request, around: Surroundings, out: Outcome, tried: seq<Tried>, max: nat): seq<Entry> {
    if EarlyRefusal(out) then []
    else
      OpeningEntries(req, around) + JobEntries(RunFor(req, around), out, tried, max) + ClosingEntries(req, around, out)
  }

  function OpeningEntries(req: Request, around: Surroundings): seq<Entry> {
    if req.attached.None? then [Entry(around.runId, RunCreated, "")] else []
  }

  function JobEntries(runId: Id, out: Outcome, tried: seq<Tried>, max: nat): seq<Entry> {
    StoryEntries(runId, tried, max) + LastJobEntries(runId, out, tried)
  }

  function LastJobEntries(runId: Id, out: Outcome, tried: seq<Tried>): seq<Entry> {
    if out.Delivered? then [Entry(runId, KindFor(LastState(out, tried)), out.jobId)] else []
  }

  function ClosingEntries(req: Request, around: Surroundings, out: Outcome): seq<Entry> {
    if req.attached.None? && RunStateAfter(out) != RunActive then [Entry(around.runId, RunCompleted, "")] else []
  }

  /** The account a delivered dispatch leaves in the log. */
  ghost predicate Accounted(entries: seq<Entry>, out: Outcome, max: nat)
    requires out.Delivered?
  {
    var failed := out.verdict.Some? && !out.verdict.value.pass;
    && Count(entries, Created) == out.retries + 1 <= max + 1
    && Count(entries, Retried) == out.retries
    && Count(entries, Breached) == (if failed then 1 else 0)
    && (failed ==> out.retries == max)
  }

  lemma DeliveredAccounted(req: Request, around: Surroundings, out: Outcome, tried: seq<Tried>, original: string,
                           max: nat)
    requires out.Delivered? && Tells(out, tried, around, original, max)
    ensures Accounted(DispatchEntries(req, around, out, tried, max), out, max)
  {
    hide StoryEntries, Count, Story, FateOf;
    var runId := RunFor(req, around);
    Account(runId, tried, around, original, max, Finished);
    forall tag: Tag
      ensures Count(DispatchEntries(req, around, out, tried, max), tag) == Count(StoryEntries(runId, tried, max), tag)
    {
      CountJoin(OpeningEntries(req, around) + JobEntries(runId, out, tried, max),
                ClosingEntries(req, around, out), tag);
      CountJoin(OpeningEntries(req, around), JobEntries(runId, out, tried, max), tag);
      CountJoin(StoryEntries(runId, tried, max), LastJobEntries(runId, out, tried), tag);
      CountUntagged(OpeningEntries(req, around), tag);
      CountUntagged(LastJobEntries(runId, out, tried), tag);
      CountUntagged(ClosingEntries(req, around, out), tag);
    }
    FailingIsVerdict(out, tried, max);
  }

  lemma FailingIsVerdict(out: Outcome, tried: seq<Tried>, max: nat)
    requires out.Delivered? && Reports(out, tried, max)
    ensures tried != [] && Failing(tried[|tried| - 1].what) <==> out.verdict.Some? && !out.verdict.value.pass
  {
  }

  lemma CountUntagged(entries: seq<Entry>, tag: Tag)
    requires |entries| <= 1 && forall k :: 0 <= k < |entries| ==> !Tagged(entries[k].kind, tag)
    ensures Count(entries, tag) == 0
  {
  }

  /** The jobs of a dispatch and, for its own run, the run's end. */
  method DispatchAndClose(store: JobStore, req: Request, role: string, original: string, around: Surroundings, max: nat)
    returns (out: Outcome, ghost tried: seq<Tried>)
    requires FreshIds(around, store.db.tables.(runs := map[]))
    requires req.attached.None? ==> around.runId in store.db.tables.runs
    modifies store.db
    ensures Tells(out, tried, around, original, max) && !EarlyRefusal(out) && out != Refused(PromptFailed)
    ensures store.db.tables.jobs ==
      JobsAfter(old(store.db.tables.jobs), RunFor(req, around), role, tried, LastState(out, tried))
    ensures store.db.tables.runs == if ClosingEntries(req, around, out) == [] then old(store.db.tables.runs)
      else old(store.db.tables.runs)[around.runId :=
        old(store.db.tables.runs[around.runId]).(state := RunStateAfter(out))]
    ensures Logged(old(store.db.log), store.db.log,
      JobEntries(RunFor(req, around), out, tried, max) + ClosingEntries(req, around, out))
  {
    hide Logged, Story, EndsWith, Reports, JobsAfter, JobEntries, FreshIds;
    var db := store.db;
    var runId := RunFor(req, around);
    ghost var log0 := db.log;
    var settled;
    out, tried, settled := DispatchJobs(store, runId, role, original, around, max);
    ghost var log1 := db.log;
    ghost var jobs := JobEntries(runId, out, tried, max);
    assert jobs + [] == jobs;
    RunStateRight(out, tried, around, original, max);
    if req.attached.None? && out != Refused(Cancelled) {
      store.CompleteRun(runId, if settled == JobComplete then RunDone else RunFailed);
      LoggedThen(log0, log1, db.log, jobs, ClosingEntries(req, around, out));
    }
  }

  /** The whole dispatch: its story, what it leaves in the jobs and runs tables, and what it logs. */
  method Orchestrate(store: JobStore, configured: int, req: Request, around: Surroundings)
    returns (out: Outcome, ghost tried: seq<Tried>)
    requires FreshIds(around, store.db.tables)
    modifies store.db
    ensures out == Refused(RoleMissing) <==> req.role.None?
    ensures out.Refused? && out.reason.InputMissing? <==>
      req.role.Some? && exists k :: 0 <= k < |req.role.value.required| && req.role.value.required[k] !in req.inputs
    ensures EarlyRefusal(out) || out == Refused(PromptFailed) ==> tried == []
    ensures !EarlyRefusal(out) ==> (out == Refused(PromptFailed) <==> req.prompt.None?)
    ensures !EarlyRefusal(out) && req.prompt.Some? ==>
      Tells(out, tried, around, req.prompt.value, MaxRetries(configured))
    ensures RunAccount(req, around, out, old(store.db.tables.runs), store.db.tables.runs)
    ensures req.role.Some? ==> store.db.tables.jobs == JobsAfter(old(store.db.tables.jobs), RunFor(req, around),
      req.role.value.name, tried, LastState(out, tried))
    ensures forall id :: id in store.db.tables.jobs && id !in old(store.db.tables.jobs) ==>
      store.db.tables.jobs[id].state in {JobComplete, JobFailure}
    ensures Logged(old(store.db.log), store.db.log, DispatchEntries(req, around, out, tried, MaxRetries(configured)))
    ensures out.Delivered? ==>
      Accounted(EntriesOf(store.db.log[|old(store.db.log)|..]), out, MaxRetries(configured))
    ensures out.Delivered? ==>
      var good := out.exit == 0 && (out.verdict.Some? ==> out.verdict.value.pass);
      && out.jobId in store.db.tables.jobs
      && store.db.tables.jobs[out.jobId].state == (if good then JobComplete else JobFailure)
      && (req.attached.None? ==> store.db.tables.runs == old(store.db.tables.runs)[around.runId :=
            Run(if good then RunDone else RunFailed, 0.0, None)])
    ensures out.Refused? && !EarlyRefusal(out) && req.attached.None? ==>
      store.db.tables.runs == old(store.db.tables.runs)[around.runId :=
        Run(if out.reason.PromptFailed? || out.reason.Cancelled? then RunActive else RunFailed, 0.0, None)]
  {
    hide Logged, Story, Tells, JobsAfter, JobEntries, Accounted, EntriesOf, FreshIds, LastState;
    tried := [];
    var db := store.db;
    ghost var before, log0 := db.tables, db.log;
    LoggedNothing(log0);
    if req.role.None? {
      return Refused(RoleMissing), [];
    }
    var role := req.role.value;
    ghost var max := MaxRetries(configured);
    NothingTried(before.jobs, role.name, req, around, max);
    var missing := MissingInput(role.required, req.inputs);
    if missing.Some? {
      return Refused(InputMissing(missing.value)), [];
    }
    OwnRunIsNew(around, db.tables);
    if req.attached.None? {
      var created := store.CreateRun(around.runId);
    }
    ghost var log1 := db.log;
    assert Logged(log0, log1, OpeningEntries(req, around));
    if req.prompt.None? {
      return Refused(PromptFailed), [];
    }
    out, tried := DispatchAndClose(store, req, role.name, req.prompt.value, around, MaxRetries(configured));
    LoggedThen(log0, log1, db.log, OpeningEntries(req, around),
               JobEntries(RunFor(req, around), out, tried, max) + ClosingEntries(req, around, out));
    EntriesAssociate(req, around, out, tried, max);
    AllSettled(before, RunFor(req, around), role.name, out, tried, around, req.prompt.value, max);
    if out.Delivered? {
      DeliveredJob(before, RunFor(req, around), role.name, out, tried, around, req.prompt.value, max);
      DeliveredAccounted(req, around, out, tried, req.prompt.value, max);
      LoggedEntries(log0, db.log, DispatchEntries(req, around, out, tried, max));
    }
  }

  lemma DeliveredJob(t: Tables, runId: Id, role: string, out: Outcome, tried: seq<Tried>, around: Surroundings,
                     original: string, max: nat)
    requires out.Delivered? && Tells(out, tried, around, original, max) && FreshIds(around, t)
    ensures var after := JobsAfter(t.jobs, runId, role, tried, LastState(out, tried));
      && out.jobId in after
      && after[out.jobId].state ==
           if out.exit == 0 && (out.verdict.Some? ==> out.verdict.value.pass) then JobComplete else JobFailure
  {
    hide JobsAfter;
    JobSettled(t.jobs, runId, role, tried, LastState(out, tried), |tried| - 1);
  }

  lemma OwnRunIsNew(around: Surroundings, t: Tables)
    requires FreshIds(around, t)
    ensures around.runId !in t.runs && forall runs :: FreshIds(around, t.(runs := map[])) && FreshIds(around,
      t.(runs := runs).(runs := map[]))
  {
  }

  lemma EntriesAssociate(req: Request, around: Surroundings, out: Outcome, tried: seq<Tried>, max: nat)
    requires !EarlyRefusal(out)
    ensures DispatchEntries(req, around, out, tried, max) == OpeningEntries(req, around)
      + (JobEntries(RunFor(req, around), out, tried, max) + ClosingEntries(req, around, out))
  {
  }

  lemma AllSettled(t: Tables, runId: Id, role: string, out: Outcome, tried: seq<Tried>, around: Surroundings,
                   original: string, max: nat)
    requires Tells(out, tried, around, original, max)
    requires FreshIds(around, t)
    ensures var after := JobsAfter(t.jobs, runId, role, tried, LastState(out, tried));
      forall id :: id in after && id !in t.jobs ==> after[id].state in {JobComplete, JobFailure}
  {
    hide JobsAfter, Story;
    var after := JobsAfter(t.jobs, runId, role, tried, LastState(out, tried));
    forall id | id in after && id !in t.jobs
      ensures after[id].state in {JobComplete, JobFailure}
    {
      NoJobLeftOpen(t.jobs, runId, role, tried, around, original, max, LastState(out, tried), id);
    }
  }

  lemma LoggedNothing(log: seq<Event>)
    ensures Logged(log, log, [])
  {
  }

  lemma LoggedEntries(before: seq<Event>, after: seq<Event>, entries: seq<Entry>)
    requires Logged(before, after, entries)
    ensures |before| <= |after| && EntriesOf(after[|before|..]) == entries
  {
  }

  lemma NothingTried(jobs: map<Id, Job>, role: string, req: Request, around: Surroundings, max: nat)
    ensures DispatchEntries(req, around, Refused(PromptFailed), [], max) == OpeningEntries(req, around)
    ensures forall last :: JobsAfter(jobs, RunFor(req, around), role, [], last) == jobs
  {
  }

  lemma RunStateRight(out: Outcome, tried: seq<Tried>, around: Surroundings, original: string, max: nat)
    requires Tells(out, tried, around, original, max)
    ensures out.Delivered? ==>
      RunStateAfter(out) == if LastState(out, tried).JobComplete? then RunDone else RunFailed
  {
  }

  // ---- Counting ----

  datatype Tag = Created | Retried | Breached

  predicate Tagged(kind: Kind, tag: Tag) {
    match tag
    case Created => kind.JobCreated?
    case Retried => kind.SupervisorRetry?
    case Breached => kind.ComplianceBreach?
  }

  function Count(entries: seq<Entry>, tag: Tag): nat {
    if entries == [] then 0
    else
      Count(entries[..|entries| - 1], tag) + if Tagged(entries[|entries| - 1].kind, tag) then 1 else 0
  }

  lemma {:induction false} CountJoin(a: seq<Entry>, b: seq<Entry>, tag: Tag)
    ensures Count(a + b, tag) == Count(a, tag) + Count(b, tag)
  {
    if b == [] {
      assert a + b == a;
    } else {
      assert (a + b)[..|a + b| - 1] == a + b[..|b| - 1];
      CountJoin(a, b[..|b| - 1], tag);
    }
  }

  lemma AttemptCounts(runId: Id, x: Tried, attempt: nat, maxRetries: nat)
    ensures var entries := AttemptEntries(runId, x, attempt, maxRetries);
      var fate := FateOf(x.what, attempt, maxRetries);
      && Count(entries, Created) == 1
      && Count(entries, Retried) == (if fate.Again? then 1 else 0)
      && Count(entries, Breached) == (if fate.Final? && Failing(x.what) then 1 else 0)
  {
    hide FateOf, Supervisor.RetryFeedback, Supervisor.FailedOf, Failing;
    var first := [Entry(runId, JobCreated, x.jobId), Entry(runId, JobLeased, x.jobId)];
    var rest := LastEntries(runId, x, attempt, maxRetries);
    forall tag: Tag
      ensures Count(AttemptEntries(runId, x, attempt, maxRetries), tag) == Count(first, tag) + Count(rest, tag)
    {
      CountJoin(first, rest, tag);
    }
    forall tag: Tag
      ensures Count(first, tag) == if tag == Created then 1 else 0
    {
      CountTwo(first, tag);
    }
    forall tag: Tag
      ensures Count(rest, tag) ==
        (if |rest| > 0 && Tagged(rest[0].kind, tag) then 1 else 0)
          + (if |rest| > 1 && Tagged(rest[1].kind, tag) then 1 else 0)
    {
      CountTwo(rest, tag);
    }
  }

  lemma CountTwo(entries: seq<Entry>, tag: Tag)
    requires |entries| <= 2
    ensures Count(entries, tag) == (if |entries| > 0 && Tagged(entries[0].kind, tag) then 1 else 0)
                                 + (if |entries| > 1 && Tagged(entries[1].kind, tag) then 1 else 0)
  {
    if |entries| == 2 {
      assert Count(entries[..1], tag) == if Tagged(entries[0].kind, tag) then 1 else 0;
    }
  }

  lemma {:induction false} PrefixCounts(runId: Id, tried: seq<Tried>, maxRetries: nat)
    requires forall k :: 0 <= k < |tried| ==> FateOf(tried[k].what, k, maxRetries).Again?
    ensures var entries := StoryEntries(runId, tried, maxRetries);
      Count(entries, Created) == Count(entries, Retried) == |tried| && Count(entries, Breached) == 0
  {
    hide FateOf, AttemptEntries, Count;
    if tried == [] {
      NoCounts();
    } else {
      var n := |tried| - 1;
      PrefixCounts(runId, tried[..n], maxRetries);
      AttemptCounts(runId, tried[n], n, maxRetries);
      forall tag: Tag
        ensures Count(StoryEntries(runId, tried, maxRetries), tag) ==
          Count(StoryEntries(runId, tried[..n], maxRetries), tag)
             + Count(AttemptEntries(runId, tried[n], n, maxRetries), tag)
      {
        CountJoin(StoryEntries(runId, tried[..n], maxRetries), AttemptEntries(runId, tried[n], n, maxRetries), tag);
      }
    }
  }

  lemma NoCounts()
    ensures forall tag: Tag :: Count([], tag) == 0
  {
  }

  /** The exact account of a dispatch: one job per attempt, a retry event per attempt but the last (or, when cancelled,
      per attempt), and one breach exactly when the last allowed attempt was failed by the supervisor. */
  lemma Account(runId: Id, tried: seq<Tried>, around: Surroundings, original: string, maxRetries: nat, end: LoopEnd)
    requires Story(tried, around, original, maxRetries) && EndsWith(tried, around, maxRetries, end)
    ensures var entries := StoryEntries(runId, tried, maxRetries);
      && Count(entries, Created) == |tried| <= maxRetries + 1
      && Count(entries, Retried) == (if end == Stopped(Cancelled) then |tried| else |tried| - 1)
      && Count(entries, Breached) == (if end.Finished? && Failing(tried[|tried| - 1].what) then 1 else 0)
      && (end.Finished? && Failing(tried[|tried| - 1].what) ==> |tried| - 1 == maxRetries)
  {
    hide AttemptEntries, Count;
    if end == Stopped(Cancelled) {
      AllAgain(tried, around, original, maxRetries);
      PrefixCounts(runId, tried, maxRetries);
    } else {
      var n := |tried| - 1;
      PrefixCounts(runId, tried[..n], maxRetries);
      AttemptCounts(runId, tried[n], n, maxRetries);
      forall tag: Tag
        ensures Count(StoryEntries(runId, tried, maxRetries), tag) ==
          Count(StoryEntries(runId, tried[..n], maxRetries), tag)
             + Count(AttemptEntries(runId, tried[n], n, maxRetries), tag)
      {
        CountJoin(StoryEntries(runId, tried[..n], maxRetries), AttemptEntries(runId, tried[n], n, maxRetries), tag);
      }
    }
  }

  lemma AllAgain(tried: seq<Tried>, around: Surroundings, original: string, maxRetries: nat)
    requires Story(tried, around, original, maxRetries) && EndsWith(tried, around, maxRetries, Stopped(Cancelled))
    ensures forall k :: 0 <= k < |tried| ==> FateOf(tried[k].what, k, maxRetries).Again?
  {
    hide FateOf;
  }

  /** With the rule engine's verdicts every retry prompt gives each violated rule's complaint, of which there is one,
      and ends with the original prompt. */
  lemma RetriesExplain(tried: seq<Tried>, around: Surroundings, original: string, maxRetries: nat, k: nat)
    requires Story(tried, around, original, maxRetries) && 0 < k < |tried|
    requires Failing(tried[k - 1].what) ==> Supervisor.Coherent(tried[k - 1].what.judged.value.value)
    ensures Failing(tried[k - 1].what)
    ensures var messages := Supervisor.FailedOf(tried[k - 1].what.judged.value.value.results);
      messages != [] && Supervisor.Answers(tried[k].prompt, messages, original)
  {
    hide Supervisor.Answers;
    assert FateOf(tried[k - 1].what, k - 1, maxRetries).Again?;
    var verdict := tried[k - 1].what.judged.value.value;
    Supervisor.FailsIffSaysSo(verdict);
    Supervisor.RetryPromptSays(verdict, original);
  }

  /** What ends a dispatch, read off its last attempt. */
  lemma EndingMeaning(out: Outcome, tried: seq<Tried>, around: Surroundings, original: string, max: nat)
    requires Tells(out, tried, around, original, max) && tried != []
    ensures var last := tried[|tried| - 1].what;
      && (out == Refused(Denied) <==> !last.permitted)
      && (out == Refused(DispatchFailed) <==> last.permitted && !last.dispatched)
      && (out == Refused(WaitFailed) <==> last.permitted && last.dispatched && last.exit.None?)
      && (out == Refused(EvalFailed) <==>
            last.permitted && last.dispatched && last.exit.Some? && last.judged.Some? && last.judged.value.Error?)
      && (out == Refused(Cancelled) ==> Failing(last) && |tried| <= max && around.cancelled(|tried|))
      && (out.Delivered? ==> (
            && last.permitted && last.dispatched && last.exit == Some(out.exit)
            && last.judged == (if out.verdict.Some? then Some(Supervisor.Ok(out.verdict.value)) else None)
            && out.jobId == tried[|tried| - 1].jobId && out.retries == |tried| - 1 <= max
            && (Failing(last) ==> out.retries == max)))
  {
    hide RetryPrompt;
  }

  /** The events of a retried attempt, in order; the prompt that follows quotes the feedback logged. */
  lemma RetryLogged(runId: Id, tried: seq<Tried>, around: Surroundings, original: string, max: nat, k: nat)
    returns (at: nat, feedback: string)
    requires Story(tried, around, original, max) && k < |tried| - 1
    ensures var entries, id := StoryEntries(runId, tried, max), tried[k].jobId;
      var failed := Supervisor.FailedOf(tried[k].what.judged.value.value.results);
      && at + 4 <= |entries|
      && entries[at..at + 4] == [
           Entry(runId, JobCreated, id), Entry(runId, JobLeased, id), Entry(runId, JobFailed, id),
           Entry(runId, SupervisorRetry(k + 1, feedback, failed), id)]
    ensures tried[k + 1].prompt == feedback + "\n\n" + original
  {
    hide Supervisor.RetryFeedback, Supervisor.FailedOf, StoryEntries;
    var verdict := FateOf(tried[k].what, k, max).verdict;
    feedback := Supervisor.RetryFeedback(verdict);
    at := AttemptAt(runId, tried, max, k);
    var entries := StoryEntries(runId, tried, max);
    assert entries[at..at + 4] == AttemptEntries(runId, tried[k], k, max);
  }

  /** The events of the last attempt before its job is settled. */
  lemma LastLogged(runId: Id, tried: seq<Tried>, around: Surroundings, original: string, max: nat)
    requires Story(tried, around, original, max) && EndsWith(tried, around, max, Finished)
    ensures var n := |tried| - 1;
      var entries, id, what := StoryEntries(runId, tried, max), tried[n].jobId, tried[n].what;
      entries == StoryEntries(runId, tried[..n], max)
        + [Entry(runId, JobCreated, id), Entry(runId, JobLeased, id)]
        + if Failing(what)
          then [Entry(runId, ComplianceBreach(Supervisor.FailedOf(what.judged.value.value.results), n + 1), id)]
          else []
  {
    hide Supervisor.RetryFeedback, Supervisor.FailedOf;
  }

  lemma {:induction false} AttemptAt(runId: Id, tried: seq<Tried>, max: nat, k: nat) returns (at: nat)
    requires k < |tried|
    ensures var own := AttemptEntries(runId, tried[k], k, max);
      at + |own| <= |StoryEntries(runId, tried, max)| && StoryEntries(runId, tried, max)[at..at + |own|] == own
  {
    hide AttemptEntries;
    var n := |tried| - 1;
    if k < n {
      at := AttemptAt(runId, tried[..n], max, k);
    } else {
      at := |StoryEntries(runId, tried[..n], max)|;
    }
  }
}
