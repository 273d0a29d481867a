/** A dispatch whose context is cancelled on the way. Every store write uses the context, so from then on no write
    succeeds and the store stays as the writes made so far left it. Which jobs does that leave open? */
module DispatchCut {
  import opened Options
  import opened Store
  import opened Dispatcher

  /** What a log entry makes of its job. */
  function Becomes(kind: Kind): Option<JobState> {
    match kind
    case JobCreated => Some(JobPending)
    case JobLeased => Some(JobDispatched)
    case JobFailed => Some(JobFailure)
    case JobCompleted => Some(JobComplete)
    case _ => None
  }

  predicate Decides(e: Entry, jobId: Id) {
    e.subject == jobId && Becomes(e.kind).Some?
  }

  /** A job's state after some writes; none before it is created. */
  function StateAfter(entries: seq<Entry>, jobId: Id): Option<JobState> {
    if entries == [] then None
    else
      var last := entries[|entries| - 1];
      if Decides(last, jobId) then Becomes(last.kind) else StateAfter(entries[..|entries| - 1], jobId)
  }

  predicate Open(state: Option<JobState>) {
    state.Some? && state.value != JobComplete && state.value != JobFailure
  }

  lemma {:induction false} StateAt(entries: seq<Entry>, jobId: Id, at: nat)
    requires at < |entries| && Decides(entries[at], jobId)
    requires forall q :: at < q < |entries| ==> !Decides(entries[q], jobId)
    ensures StateAfter(entries, jobId) == Becomes(entries[at].kind)
  {
    if at < |entries| - 1 {
      StateAt(entries[..|entries| - 1], jobId, at);
    }
  }

  lemma {:induction false} NoStateYet(entries: seq<Entry>, jobId: Id)
    requires forall q :: 0 <= q < |entries| ==> !Decides(entries[q], jobId)
    ensures StateAfter(entries, jobId) == None
  {
    if entries != [] {
      NoStateYet(entries[..|entries| - 1], jobId);
    }
  }

  // ---- Where a job's entries are ----

  /** In a whole dispatch, the position of the k-th attempt's first entry. */
  function CreatedAt(req: Request, around: Surroundings, tried: seq<Tried>, max: nat, k: nat): nat
    requires k < |tried|
  {
    |OpeningEntries(req, around)| + |StoryEntries(RunFor(req, around), tried[..k], max)|
  }

  /** And of the entry that settles its job: the attempt's own, or the dispatch's last word on a final one. */
  function SettledAt(req: Request, around: Surroundings, tried: seq<Tried>, max: nat, k: nat): nat
    requires k < |tried|
  {
    if FateOf(tried[k].what, k, max).Final? then
      |OpeningEntries(req, around)| + |StoryEntries(RunFor(req, around), tried, max)|
    else CreatedAt(req, around, tried, max, k) + 2
  }

  ghost predicate Silent(entries: seq<Entry>, id: Id) {
    forall q :: 0 <= q < |entries| ==> !Decides(entries[q], id)
  }

  lemma SilentJoin(a: seq<Entry>, b: seq<Entry>, id: Id)
    requires Silent(a, id) && Silent(b, id)
    ensures Silent(a + b, id)
  {
  }

  /** A story is what came before an attempt, the attempt's own entries, and the rest; only the attempt speaks of its
      job. */
  lemma {:induction false} StoryPlaces(runId: Id, tried: seq<Tried>, max: nat, k: nat) returns (rest: seq<Entry>)
    requires k < |tried| && forall i, j :: 0 <= i < j < |tried| ==> tried[i].jobId != tried[j].jobId
    ensures StoryEntries(runId, tried, max)
         == StoryEntries(runId, tried[..k], max) + AttemptEntries(runId, tried[k], k, max) + rest
    ensures Silent(StoryEntries(runId, tried[..k], max), tried[k].jobId) && Silent(rest, tried[k].jobId)
    ensures k == |tried| - 1 ==> rest == []
  {
    hide AttemptEntries;
    var n := |tried| - 1;
    if k < n {
      var before := StoryPlaces(runId, tried[..n], max, k);
      var own := AttemptEntries(runId, tried[n], n, max);
      AttemptSilent(runId, tried[n], n, max, tried[k].jobId);
      assert tried[..n][..k] == tried[..k];
      rest := before + own;
      SilentJoin(before, own, tried[k].jobId);
      var head := StoryEntries(runId, tried[..k], max) + AttemptEntries(runId, tried[k], k, max);
      assert head + before + own == head + (before + own);
    } else {
      StorySilent(runId, tried[..n], max, tried[k].jobId);
      assert tried[..k] == tried[..n];
      rest := [];
    }
  }

  lemma AttemptSilent(runId: Id, x: Tried, attempt: nat, max: nat, id: Id)
    requires x.jobId != id
    ensures Silent(AttemptEntries(runId, x, attempt, max), id)
  {
  }

  lemma {:induction false} StorySilent(runId: Id, tried: seq<Tried>, max: nat, id: Id)
    requires forall k :: 0 <= k < |tried| ==> tried[k].jobId != id
    ensures Silent(StoryEntries(runId, tried, max), id)
  {
    hide AttemptEntries, Silent;
    if tried == [] {
      NothingSilent(id);
    } else {
      var n := |tried| - 1;
      StorySilent(runId, tried[..n], max, id);
      AttemptSilent(runId, tried[n], n, max, id);
      SilentJoin(StoryEntries(runId, tried[..n], max), AttemptEntries(runId, tried[n], n, max), id);
    }
  }

  lemma NothingSilent(id: Id)
    ensures Silent([], id)
  {
  }

  /** The job's places in a log: created, dispatched, settled, and nowhere else. */
  ghost predicate Placed(entries: seq<Entry>, runId: Id, id: Id, created: int, settled: int) {
    && 0 <= created && created + 1 < settled < |entries|
    && entries[created] == Entry(runId, JobCreated, id) && entries[created + 1] == Entry(runId, JobLeased, id)
    && Decides(entries[settled], id) && !Open(Becomes(entries[settled].kind))
    && forall q :: 0 <= q < |entries| && q != created && q != created + 1 && q != settled ==> !Decides(entries[q], id)
  }

  lemma PlacedWithin(before: seq<Entry>, mid: seq<Entry>, after: seq<Entry>, runId: Id, id: Id, created: int,
                     settled: int)
    requires Silent(before, id) && Placed(mid, runId, id, created, settled) && Silent(after, id)
    ensures Placed(before + mid + after, runId, id, |before| + created, |before| + settled)
    ensures settled < |mid| && (before + mid + after)[|before| + settled] == mid[settled]
  {
    hide Decides, Open, Becomes;
    var all := before + mid + after;
    forall q | 0 <= q < |all| && q != |before| + created && q != |before| + created + 1 && q != |before| + settled
      ensures !Decides(all[q], id)
    {
      if q < |before| {
        assert all[q] == before[q];
      } else if q < |before| + |mid| {
        assert all[q] == mid[q - |before|];
      } else {
        assert all[q] == after[q - |before| - |mid|];
      }
    }
  }

  /** An attempt that settles its own job. */
  lemma AttemptPlaced(runId: Id, x: Tried, k: nat, max: nat)
    requires !FateOf(x.what, k, max).Final?
    ensures Placed(AttemptEntries(runId, x, k, max), runId, x.jobId, 0, 2)
    ensures |AttemptEntries(runId, x, k, max)| > 2 && AttemptEntries(runId, x, k, max)[2].kind == JobFailed
  {
    hide Supervisor.RetryFeedback, Supervisor.FailedOf;
  }

  /** A final attempt, with the last word on its job. */
  lemma FinalPlaced(runId: Id, x: Tried, k: nat, max: nat, last: Entry)
    requires FateOf(x.what, k, max).Final?
    requires last.subject == x.jobId && (last.kind == JobCompleted || last.kind == JobFailed)
    ensures var own := AttemptEntries(runId, x, k, max);
      Placed(own + [last], runId, x.jobId, 0, |own|) && (own + [last])[|own|] == last
  {
    hide Supervisor.RetryFeedback, Supervisor.FailedOf;
  }

  lemma JobPlaces(req: Request, around: Surroundings, out: Outcome, tried: seq<Tried>, original: string, max: nat,
                  k: nat)
    requires Tells(out, tried, around, original, max) && !EarlyRefusal(out) && k < |tried|
    requires around.jobIds(k) == tried[k].jobId && forall i, j :: i != j ==> around.jobIds(i) != around.jobIds(j)
    ensures Placed(DispatchEntries(req, around, out, tried, max), RunFor(req, around), tried[k].jobId,
      CreatedAt(req, around, tried, max, k), SettledAt(req, around, tried, max, k))
    ensures DispatchEntries(req, around, out, tried, max)[SettledAt(req, around, tried, max, k)].kind
         == if k < |tried| - 1 then JobFailed else KindFor(LastState(out, tried))
  {
    hide StoryEntries, AttemptEntries, FateOf, RunStateAfter, LastState, Placed, Silent, Story, EndsWith, Reports;
    var runId := RunFor(req, around);
    var id := tried[k].jobId;
    var opening, last, closing :=
      OpeningEntries(req, around), LastJobEntries(runId, out, tried), ClosingEntries(req, around, out);
    var front, own := StoryEntries(runId, tried[..k], max), AttemptEntries(runId, tried[k], k, max);
    StoryIds(tried, around, original, max);
    var rest := StoryPlaces(runId, tried, max, k);
    FinalIsLast(out, tried, around, original, max, k);
    EndsSilent(req, around, out, tried, k);
    if FateOf(tried[k].what, k, max).Final? {
      FinalPlaced(runId, tried[k], k, max, last[0]);
      SplicedFinal(opening, front, own, last, closing, runId, id);
    } else {
      AttemptPlaced(runId, tried[k], k, max);
      SplicedOwn(opening, front, own, rest, last, closing, runId, id);
    }
  }

  lemma SplicedFinal(opening: seq<Entry>, front: seq<Entry>, own: seq<Entry>, last: seq<Entry>, closing: seq<Entry>,
                     runId: Id, id: Id)
    requires Silent(opening, id) && Silent(front, id) && Silent(closing, id)
    requires |last| == 1 && Placed(own + last, runId, id, 0, |own|)
    ensures var all, created := opening + (front + own + [] + last) + closing, |opening| + |front|;
      Placed(all, runId, id, created, created + |own|) && all[created + |own|] == last[0]
  {
    hide Silent, Placed;
    SilentJoin(opening, front, id);
    PlacedWithin(opening + front, own + last, closing, runId, id, 0, |own|);
    assert opening + front + (own + last) + closing == opening + (front + own + [] + last) + closing;
  }

  lemma SplicedOwn(opening: seq<Entry>, front: seq<Entry>, own: seq<Entry>, rest: seq<Entry>, last: seq<Entry>,
                   closing: seq<Entry>, runId: Id, id: Id)
    requires Silent(opening, id) && Silent(front, id) && Silent(rest, id) && Silent(last, id) && Silent(closing, id)
    requires |own| > 2 && Placed(own, runId, id, 0, 2)
    ensures var all, created := opening + (front + own + rest + last) + closing, |opening| + |front|;
      Placed(all, runId, id, created, created + 2) && all[created + 2] == own[2]
  {
    hide Silent, Placed;
    SilentJoin(opening, front, id);
    SilentJoin(rest, last, id);
    SilentJoin(rest + last, closing, id);
    PlacedWithin(opening + front, own, rest + last + closing, runId, id, 0, 2);
    assert opening + front + own + (rest + last + closing) == opening + (front + own + rest + last) + closing;
  }

  lemma EndsSilent(req: Request, around: Surroundings, out: Outcome, tried: seq<Tried>, k: nat)
    requires k < |tried| && (out.Delivered? ==> out.jobId == tried[|tried| - 1].jobId)
    requires forall i, j :: 0 <= i < j < |tried| ==> tried[i].jobId != tried[j].jobId
    ensures Silent(OpeningEntries(req, around), tried[k].jobId)
      && Silent(ClosingEntries(req, around, out), tried[k].jobId)
    ensures !(out.Delivered? && k == |tried| - 1) ==>
      Silent(LastJobEntries(RunFor(req, around), out, tried), tried[k].jobId)
  {
  }

  /** Only a delivered dispatch has a final attempt, its last. */
  lemma FinalIsLast(out: Outcome, tried: seq<Tried>, around: Surroundings, original: string, max: nat, k: nat)
    requires Tells(out, tried, around, original, max) && k < |tried|
    ensures FateOf(tried[k].what, k, max).Final? <==> out.Delivered? && k == |tried| - 1
    ensures out.Delivered? ==> out.jobId == tried[|tried| - 1].jobId
    ensures LastState(out, tried) != JobPending
    ensures KindFor(LastState(out, tried)) == JobCompleted || KindFor(LastState(out, tried)) == JobFailed
    ensures !out.Delivered? ==> LastState(out, tried) == JobFailure
  {
    hide RetryPrompt;
  }

  /** Undisturbed, the jobs table is the replay of what the dispatch logged. */
  lemma TableIsReplay(jobs: map<Id, Job>, role: string, req: Request, around: Surroundings, out: Outcome,
                      tried: seq<Tried>, original: string, max: nat, k: nat)
    requires Tells(out, tried, around, original, max) && !EarlyRefusal(out) && k < |tried|
    requires forall i, j :: i != j ==> around.jobIds(i) != around.jobIds(j)
    ensures var after := JobsAfter(jobs, RunFor(req, around), role, tried, LastState(out, tried));
      && tried[k].jobId in after
      && StateAfter(DispatchEntries(req, around, out, tried, max), tried[k].jobId) == Some(after[tried[k].jobId].state)
  {
    hide StoryEntries, FateOf, JobsAfter, LastState, SettledAt, CreatedAt, StateAfter, Story, EndsWith, Reports;
    StoryIds(tried, around, original, max);
    JobPlaces(req, around, out, tried, original, max, k);
    var all, at := DispatchEntries(req, around, out, tried, max), SettledAt(req, around, tried, max, k);
    StateAt(all, tried[k].jobId, at);
    JobSettled(jobs, RunFor(req, around), role, tried, LastState(out, tried), k);
    FinalIsLast(out, tried, around, original, max, k);
    KindTells(LastState(out, tried));
  }

  lemma KindTells(state: JobState)
    requires state != JobPending
    ensures Becomes(KindFor(state)) == Some(state) && Becomes(JobFailed) == Some(JobFailure)
  {
  }

  /** Cancelled after n writes, a job is left open exactly when the cancellation fell between its creation and its
      settlement. */
  lemma OpenIffCutInside(req: Request, around: Surroundings, out: Outcome, tried: seq<Tried>, original: string,
                         max: nat, k: nat, n: nat)
    requires Tells(out, tried, around, original, max) && !EarlyRefusal(out) && k < |tried|
    requires forall i, j :: i != j ==> around.jobIds(i) != around.jobIds(j)
    requires n <= |DispatchEntries(req, around, out, tried, max)|
    ensures Open(StateAfter(DispatchEntries(req, around, out, tried, max)[..n], tried[k].jobId)) <==>
      CreatedAt(req, around, tried, max, k) < n <= SettledAt(req, around, tried, max, k)
  {
    hide StoryEntries, FateOf, CreatedAt, SettledAt, StateAfter, Story, EndsWith, Reports;
    StoryIds(tried, around, original, max);
    JobPlaces(req, around, out, tried, original, max, k);
    CutPlaced(DispatchEntries(req, around, out, tried, max), RunFor(req, around), tried[k].jobId,
              CreatedAt(req, around, tried, max, k), SettledAt(req, around, tried, max, k), n);
  }

  lemma CutPlaced(entries: seq<Entry>, runId: Id, id: Id, created: nat, settled: nat, n: nat)
    requires Placed(entries, runId, id, created, settled) && n <= |entries|
    ensures Open(StateAfter(entries[..n], id)) <==> created < n <= settled
  {
    hide StateAfter;
    var prefix := entries[..n];
    if n <= created {
      NoStateYet(prefix, id);
    } else if n == created + 1 {
      StateAt(prefix, id, created);
    } else if n <= settled {
      StateAt(prefix, id, created + 1);
    } else {
      StateAt(prefix, id, settled);
    }
  }

  /** And the dispatch's own run is left active exactly when the cancellation fell after its creation and before its
      completion; a run that is never completed stays active from its creation on. */
  lemma RunOpenIffCutInside(req: Request, around: Surroundings, out: Outcome, tried: seq<Tried>, max: nat, n: nat)
    requires !EarlyRefusal(out) && req.attached.None?
    requires n <= |DispatchEntries(req, around, out, tried, max)|
    ensures var all := DispatchEntries(req, around, out, tried, max);
      var open := Entry(around.runId, RunCreated, "") in all[..n] && Entry(around.runId, RunCompleted, "") !in all[..n];
      open <==> 0 < n && (n < |all| || RunStateAfter(out) == RunActive)
  {
    hide StoryEntries, LastState, RunStateAfter;
    var runId := around.runId;
    var all := DispatchEntries(req, around, out, tried, max);
    var jobs := JobEntries(runId, out, tried, max);
    JobKinds(runId, out, tried, max);
    assert all == [Entry(runId, RunCreated, "")] + jobs + ClosingEntries(req, around, out);
    if n > 0 {
      assert all[..n][0] == all[0];
    }
    if n == |all| && RunStateAfter(out) != RunActive {
      assert all[..n][n - 1] == Entry(runId, RunCompleted, "");
    } else {
      assert forall q :: 0 <= q < n ==> !all[q].kind.RunCompleted?;
    }
  }

  ghost predicate NoRunEnds(entries: seq<Entry>) {
    forall q :: 0 <= q < |entries| ==> !entries[q].kind.RunCompleted?
  }

  lemma JobKinds(runId: Id, out: Outcome, tried: seq<Tried>, max: nat)
    ensures NoRunEnds(JobEntries(runId, out, tried, max))
  {
    hide StoryEntries, LastState;
    StoryKinds(runId, tried, max);
    JoinKinds(StoryEntries(runId, tried, max), LastJobEntries(runId, out, tried));
  }

  lemma JoinKinds(a: seq<Entry>, b: seq<Entry>)
    requires NoRunEnds(a) && NoRunEnds(b)
    ensures NoRunEnds(a + b)
  {
  }

  lemma {:induction false} StoryKinds(runId: Id, tried: seq<Tried>, max: nat)
    ensures NoRunEnds(StoryEntries(runId, tried, max))
  {
    hide AttemptEntries;
    if tried != [] {
      var n := |tried| - 1;
      StoryKinds(runId, tried[..n], max);
      AttemptKinds(runId, tried[n], n, max);
      JoinKinds(StoryEntries(runId, tried[..n], max), AttemptEntries(runId, tried[n], n, max));
    }
  }

  lemma AttemptKinds(runId: Id, x: Tried, k: nat, max: nat)
    ensures NoRunEnds(AttemptEntries(runId, x, k, max))
  {
  }
}
