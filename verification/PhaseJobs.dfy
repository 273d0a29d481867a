/** A phase whose agents are dispatches: what a clean phase says about the jobs behind it, and how many jobs there can
    be. Fan-in reads exit codes and findings; the supervisor's verdict reaches the job's state and nothing else. */
module PhaseJobs {
  import opened Options
  import opened FanIn
  import opened PhaseLoop
  import Dispatcher
  import Store
  import Supervisor

  /** One dispatch of a role: how it ended, the attempts it made, and what its last attempt brought back. */
  datatype Work = Work(out: Dispatcher.Outcome, tried: seq<Dispatcher.Tried>, findings: seq<Finding>,
                       artifacts: seq<string>)

  /** It is what a dispatch can tell, with a job id for each attempt. */
  ghost predicate Told(w: Work, max: nat) {
    exists around: Dispatcher.Surroundings, original: string :: TellsOf(w, around, original, max)
  }

  ghost predicate TellsOf(w: Work, around: Dispatcher.Surroundings, original: string, max: nat) {
    && Dispatcher.Tells(w.out, w.tried, around, original, max)
    && forall i, j :: i != j ==> around.jobIds(i) != around.jobIds(j)
  }

  /** The developer by phase, cycle and feedback; the others by phase, cycle, slot and role, unless skipped. */
  datatype Crew = Crew(develop: (nat, nat, Option<string>) -> Work, review: (nat, nat, nat, string) -> Option<Work>)

  ghost predicate Dispatches(crew: Crew, max: nat) {
    && (forall phase, cycle, feedback :: Told(crew.develop(phase, cycle, feedback), max))
    && (forall phase, cycle, slot, role :: crew.review(phase, cycle, slot, role).Some? ==>
          Told(crew.review(phase, cycle, slot, role).value, max))
  }

  /** What the phase hears of a dispatch. */
  function Report(w: Work): DispatchResult
    requires w.out.Delivered?
  {
    DispatchResult(w.findings, w.artifacts, w.out.exit)
  }

  function Reviewed(w: Option<Work>): JobOutcome {
    if w.None? then Skipped else if w.value.out.Refused? then Failed else Done(Report(w.value))
  }

  function AgentsOf(crew: Crew): Agents {
    Agents(
      (phase: nat, cycle: nat, feedback: Option<string>) =>
        var w := crew.develop(phase, cycle, feedback);
        if w.out.Refused? then None else Some(Report(w)),
      (phase: nat, cycle: nat, slot: nat, role: string) => Reviewed(crew.review(phase, cycle, slot, role)))
  }

  // ---- The dispatches of a round ----

  function Reviews(crew: Crew, roles: seq<string>, phase: nat, cycle: nat, n: nat): seq<Work>
    requires n <= |roles|
  {
    if n == 0 then []
    else
      Reviews(crew, roles, phase, cycle, n - 1) +
        match crew.review(phase, cycle, n - 1, roles[n - 1])
        case None => []
        case Some(w) => [w]
  }

  /** The developer's, and the others' unless the developer's dispatch gave no result. */
  function Called(crew: Crew, cfg: Config, phase: nat, cycle: nat, feedback: Option<string>): seq<Work> {
    var dev := crew.develop(phase, cycle, feedback);
    [dev] + if dev.out.Refused? then [] else Reviews(crew, Roles(cfg), phase, cycle, |Roles(cfg)|)
  }

  lemma {:induction false} ReviewsAre(crew: Crew, roles: seq<string>, phase: nat, cycle: nat, n: nat, w: Work)
    requires n <= |roles|
    ensures w in Reviews(crew, roles, phase, cycle, n) <==>
      exists k :: 0 <= k < n && crew.review(phase, cycle, k, roles[k]) == Some(w)
    ensures |Reviews(crew, roles, phase, cycle, n)| <= n
  {
    if n > 0 {
      ReviewsAre(crew, roles, phase, cycle, n - 1, w);
    }
  }

  // ---- What clean means ----

  ghost predicate Spotless(w: Work) {
    w.out.Delivered? && w.out.exit == 0 && w.findings == []
  }

  ghost predicate QuietSlot(w: Option<Work>) {
    w.Some? ==> Spotless(w.value)
  }

  /** A round has a result exactly when every dispatch in it was delivered, and is clean exactly when each was delivered
      with exit code 0 and without findings. No verdict is asked. */
  lemma CleanIff(crew: Crew, cfg: Config, phase: nat, cycle: nat, feedback: Option<string>)
    ensures var called, round := Called(crew, cfg, phase, cycle, feedback),
                                 CycleOf(AgentsOf(crew), cfg, phase, cycle, feedback);
      && (round.Some? <==> forall w :: w in called ==> w.out.Delivered?)
      && (round.Some? && round.value.Clean() <==> forall w :: w in called ==> Spotless(w))
  {
    hide Aggregated, Deduped, Reviews, Roles;
    var roles, agents := Roles(cfg), AgentsOf(crew);
    var called := Called(crew, cfg, phase, cycle, feedback);
    var dev := crew.develop(phase, cycle, feedback);
    assert dev == called[0];
    if dev.out.Delivered? {
      var outcomes := Outcomes(agents, roles, phase, cycle);
      var reviews := Reviews(crew, roles, phase, cycle, |roles|);
      forall w
        ensures w in called <==>
          w == dev || exists k :: 0 <= k < |roles| && crew.review(phase, cycle, k, roles[k]) == Some(w)
      {
        ReviewsAre(crew, roles, phase, cycle, |roles|, w);
      }
      assert forall k :: 0 <= k < |roles| ==> outcomes[k] == Reviewed(crew.review(phase, cycle, k, roles[k]));
      if Collected(outcomes).Some? {
        var results := [Report(dev)] + Collected(outcomes).value;
        NothingFound(results, cfg);
        forall k | 0 <= k < |roles|
          ensures results[k + 1] == ResultOf(outcomes[k])
        {
        }
        SpotlessResults(crew, roles, phase, cycle, dev, results);
      }
    }
  }

  lemma SpotlessResults(crew: Crew, roles: seq<string>, phase: nat, cycle: nat, dev: Work, results: seq<DispatchResult>)
    requires dev.out.Delivered? && |results| == |roles| + 1 && results[0] == Report(dev)
    requires forall k :: 0 <= k < |roles| ==>
      var outcome := Reviewed(crew.review(phase, cycle, k, roles[k]));
      outcome != Failed && results[k + 1] == ResultOf(outcome)
    ensures (forall k :: 0 <= k < |results| ==> NoTrace(results[k])) <==>
      (Spotless(dev) && forall k :: 0 <= k < |roles| ==> QuietSlot(crew.review(phase, cycle, k, roles[k])))
  {
    forall k | 0 <= k < |roles|
      ensures NoTrace(results[k + 1]) <==> QuietSlot(crew.review(phase, cycle, k, roles[k]))
    {
    }
    if Spotless(dev) && forall k :: 0 <= k < |roles| ==> QuietSlot(crew.review(phase, cycle, k, roles[k])) {
      forall k | 0 <= k < |results|
        ensures NoTrace(results[k])
      {
        if k > 0 { assert QuietSlot(crew.review(phase, cycle, k - 1, roles[k - 1])); }
      }
    }
  }

  // ---- The jobs behind them ----

  /** The state in which a dispatch leaves its k-th job. */
  function StateLeft(w: Work, k: nat): Store.JobState
    requires k < |w.tried|
  {
    if k < |w.tried| - 1 then Store.JobFailure else Dispatcher.LastState(w.out, w.tried)
  }

  lemma StateLeftInTable(w: Work, around: Dispatcher.Surroundings, original: string, max: nat,
                         jobs: map<Store.Id, Store.Job>, runId: Store.Id, role: string, k: nat)
    requires TellsOf(w, around, original, max) && k < |w.tried|
    ensures var after := Dispatcher.JobsAfter(jobs, runId, role, w.tried, Dispatcher.LastState(w.out, w.tried));
      w.tried[k].jobId in after && after[w.tried[k].jobId].state == StateLeft(w, k)
  {
    Dispatcher.JobSettled(jobs, runId, role, w.tried, Dispatcher.LastState(w.out, w.tried), k);
  }

  /** The last verdict was a failing one. */
  predicate Objected(out: Dispatcher.Outcome) {
    out.Delivered? && out.verdict.Some? && !out.verdict.value.pass
  }

  lemma AttemptsBounded(w: Work, max: nat)
    requires Told(w, max)
    ensures |w.tried| <= max + 1
  {
    var around: Dispatcher.Surroundings, original: string :| TellsOf(w, around, original, max);
  }

  /** Which jobs of a delivered dispatch are left failed. */
  lemma FailedJobs(w: Work, max: nat, k: nat)
    requires Told(w, max) && w.out.Delivered? && k < |w.tried|
    ensures |w.tried| == w.out.retries + 1 && (Objected(w.out) ==> w.out.retries == max)
    ensures StateLeft(w, k).JobFailure? <==> k < w.out.retries || Objected(w.out) || w.out.exit != 0
  {
    var around: Dispatcher.Surroundings, original: string :| TellsOf(w, around, original, max);
  }

  function CalledIn(crew: Crew, cfg: Config, phase: nat, rounds: seq<Round>, i: nat): seq<Work>
    requires i < |rounds|
  {
    Called(crew, cfg, phase, i, rounds[i].feedback)
  }

  lemma CalledTold(crew: Crew, cfg: Config, phase: nat, cycle: nat, feedback: Option<string>, max: nat, w: Work)
    requires Dispatches(crew, max) && w in Called(crew, cfg, phase, cycle, feedback)
    ensures Told(w, max)
  {
    hide Told;
    ReviewsAre(crew, Roles(cfg), phase, cycle, |Roles(cfg)|, w);
  }

  /** The jobs of a clean phase: everything was delivered, and in the last round with exit code 0 and nothing found; yet
      a job is left failed exactly when a later attempt replaced it, the last verdict objected, or its agent exited
      badly in an earlier round. */
  lemma CleanPhaseJobs(crew: Crew, cfg: Config, phase: nat, max: nat)
    requires Dispatches(crew, max)
    requires Outcome(AgentsOf(crew), cfg, phase).Some? && Outcome(AgentsOf(crew), cfg, phase).value.clean
    ensures var rounds := RoundsFrom(AgentsOf(crew), cfg, phase, 0, None);
      forall i, w :: 0 <= i < |rounds| && w in CalledIn(crew, cfg, phase, rounds, i) ==>
        && w.out.Delivered? && (i == |rounds| - 1 ==> Spotless(w))
        && forall k :: 0 <= k < |w.tried| ==>
             (StateLeft(w, k).JobFailure? <==> k < w.out.retries || Objected(w.out) || w.out.exit != 0)
  {
    hide CycleOf, Called, Told, StateLeft, Dispatches, AgentsOf, RoundsFrom, Feedback;
    var agents := AgentsOf(crew);
    var rounds := RoundsFrom(agents, cfg, phase, 0, None);
    RoundsMeaning(agents, cfg, phase, 0, None);
    forall i, w | 0 <= i < |rounds| && w in CalledIn(crew, cfg, phase, rounds, i)
      ensures w.out.Delivered? && (i == |rounds| - 1 ==> Spotless(w))
      ensures forall k :: 0 <= k < |w.tried| ==>
        (StateLeft(w, k).JobFailure? <==> k < w.out.retries || Objected(w.out) || w.out.exit != 0)
    {
      assert rounds[i].outcome == CycleOf(agents, cfg, phase, i, rounds[i].feedback);
      CleanIff(crew, cfg, phase, i, rounds[i].feedback);
      CalledTold(crew, cfg, phase, i, rounds[i].feedback, max, w);
      forall k: nat | k < |w.tried|
        ensures StateLeft(w, k).JobFailure? <==> k < w.out.retries || Objected(w.out) || w.out.exit != 0
      {
        FailedJobs(w, max, k);
      }
    }
  }

  // ---- How many jobs a phase can take ----

  function JobsOf(called: seq<Work>): nat {
    if called == [] then 0 else |called[0].tried| + JobsOf(called[1..])
  }

  function JobsIn(crew: Crew, cfg: Config, phase: nat, rounds: seq<Round>, n: nat): nat
    requires n <= |rounds|
  {
    if n == 0 then 0
    else JobsIn(crew, cfg, phase, rounds, n - 1) + JobsOf(CalledIn(crew, cfg, phase, rounds, n - 1))
  }

  lemma {:induction false} JobsOfBounded(called: seq<Work>, each: nat)
    requires forall w :: w in called ==> |w.tried| <= each
    ensures JobsOf(called) <= |called| * each
  {
    if called != [] {
      assert called[0] in called;
      JobsOfBounded(called[1..], each);
      assert |called| * each == each + |called[1..]| * each;
    }
  }

  /** What roles and retries allow in one round. */
  function RoundLimit(cfg: Config, max: nat): nat {
    (1 + |Roles(cfg)|) * (max + 1)
  }

  lemma LimitIs(cfg: Config, max: nat)
    ensures var reviewers := if cfg.reviewers.Some? then |cfg.reviewers.value| else 2;
      var testers := if cfg.testers.Some? then |cfg.testers.value| else 1;
      RoundLimit(cfg, max) == (1 + reviewers + testers) * (max + 1)
  {
  }

  lemma RoundBounded(crew: Crew, cfg: Config, phase: nat, cycle: nat, feedback: Option<string>, max: nat)
    requires Dispatches(crew, max)
    ensures JobsOf(Called(crew, cfg, phase, cycle, feedback)) <= RoundLimit(cfg, max)
  {
    hide Told, Dispatches, Roles;
    var called := Called(crew, cfg, phase, cycle, feedback);
    forall w | w in called
      ensures |w.tried| <= max + 1
    {
      CalledTold(crew, cfg, phase, cycle, feedback, max, w);
      AttemptsBounded(w, max);
    }
    ReviewsAre(crew, Roles(cfg), phase, cycle, |Roles(cfg)|, called[0]);
    JobsOfBounded(called, max + 1);
    Times(|called|, 1 + |Roles(cfg)|, max + 1);
  }

  lemma Times(a: nat, b: nat, c: nat)
    requires a <= b
    ensures a * c <= b * c
  {
  }

  lemma {:induction false} RoundsBounded(crew: Crew, cfg: Config, phase: nat, rounds: seq<Round>, n: nat, max: nat)
    requires Dispatches(crew, max) && n <= |rounds|
    ensures JobsIn(crew, cfg, phase, rounds, n) <= n * RoundLimit(cfg, max)
  {
    hide Dispatches, RoundLimit, Called, JobsOf;
    if n > 0 {
      var each := RoundLimit(cfg, max);
      RoundsBounded(crew, cfg, phase, rounds, n - 1, max);
      RoundBounded(crew, cfg, phase, n - 1, rounds[n - 1].feedback, max);
      assert n * each == (n - 1) * each + each;
    }
  }

  /** However it ends, a phase creates no more jobs than fix cycles, roles and retries allow. */
  lemma JobsBounded(crew: Crew, cfg: Config, phase: nat, max: nat)
    requires Dispatches(crew, max)
    ensures var rounds := RoundsFrom(AgentsOf(crew), cfg, phase, 0, None);
      JobsIn(crew, cfg, phase, rounds, |rounds|) <= (MaxFixCycles(cfg.maxFixCycles) + 1) * RoundLimit(cfg, max)
    ensures var reviewers := if cfg.reviewers.Some? then |cfg.reviewers.value| else 2;
      var testers := if cfg.testers.Some? then |cfg.testers.value| else 1;
      RoundLimit(cfg, max) == (1 + reviewers + testers) * (max + 1)
  {
    hide Dispatches, RoundLimit, CycleOf, AgentsOf, JobsIn, RoundsFrom, Feedback;
    LimitIs(cfg, max);
    var rounds := RoundsFrom(AgentsOf(crew), cfg, phase, 0, None);
    RoundsMeaning(AgentsOf(crew), cfg, phase, 0, None);
    RoundsBounded(crew, cfg, phase, rounds, |rounds|, max);
    Times(|rounds|, MaxFixCycles(cfg.maxFixCycles) + 1, RoundLimit(cfg, max));
  }

  // ---- A supervisor that objects to everything ----

  /** Ids for the attempts of the dispatch in each slot of each cycle of each phase; the developer has slot 0. */
  type Ids = (nat, nat, nat) -> nat -> Store.Id

  ghost predicate Distinct(ids: Ids) {
    forall phase, cycle, slot, i, j :: i != j ==> ids(phase, cycle, slot)(i) != ids(phase, cycle, slot)(j)
  }

  function Objection(verdict: Supervisor.Verdict): Dispatcher.Happening {
    Dispatcher.Happening(true, true, Some(0), Some(Supervisor.Ok(verdict)))
  }

  /** Every attempt exits with 0 and is judged like this; the last brings back these findings. */
  function ObjectedWork(verdict: Supervisor.Verdict, ids: nat -> Store.Id, max: nat, findings: seq<Finding>): Work {
    Work(Dispatcher.Delivered(ids(max), 0, Some(verdict), max),
         seq(max + 1, (k: nat) => Dispatcher.Tried(ids(k), if k == 0 then "" else Dispatcher.RetryPrompt(verdict, ""),
                                                   Objection(verdict))),
         findings, [])
  }

  function ObjectedCrew(verdict: Supervisor.Verdict, ids: Ids, max: nat, findings: seq<Finding>): Crew {
    Crew((phase: nat, cycle: nat, feedback: Option<string>) =>
           ObjectedWork(verdict, ids(phase, cycle, 0), max, findings),
         (phase: nat, cycle: nat, slot: nat, role: string) =>
           Some(ObjectedWork(verdict, ids(phase, cycle, slot + 1), max, findings)))
  }

  lemma ObjectedTold(verdict: Supervisor.Verdict, ids: nat -> Store.Id, max: nat, findings: seq<Finding>)
    requires !verdict.pass && forall i, j :: i != j ==> ids(i) != ids(j)
    ensures Told(ObjectedWork(verdict, ids, max, findings), max)
  {
    hide Dispatcher.RetryPrompt;
    var w := ObjectedWork(verdict, ids, max, findings);
    var around := Dispatcher.Surroundings(_ => false, (_, _) => Objection(verdict), ids, "");
    assert Dispatcher.Story(w.tried, around, "", max);
    assert TellsOf(w, around, "", max);
  }

  lemma {:induction false} ObjectedReviews(verdict: Supervisor.Verdict, ids: Ids, max: nat, findings: seq<Finding>,
                                           roles: seq<string>, phase: nat, cycle: nat, n: nat)
    requires n <= |roles|
    ensures var reviews := Reviews(ObjectedCrew(verdict, ids, max, findings), roles, phase, cycle, n);
      && |reviews| == n
      && forall k :: 0 <= k < n ==> reviews[k] == ObjectedWork(verdict, ids(phase, cycle, k + 1), max, findings)
  {
    hide ObjectedWork;
    if n > 0 {
      ObjectedReviews(verdict, ids, max, findings, roles, phase, cycle, n - 1);
    }
  }

  lemma ObjectedDelivered(verdict: Supervisor.Verdict, ids: nat -> Store.Id, max: nat, findings: seq<Finding>)
    ensures ObjectedWork(verdict, ids, max, findings).out.Delivered?
  {
  }

  lemma ObjectedCalled(verdict: Supervisor.Verdict, ids: Ids, max: nat, findings: seq<Finding>, cfg: Config,
                       phase: nat, cycle: nat, feedback: Option<string>)
    ensures var called := Called(ObjectedCrew(verdict, ids, max, findings), cfg, phase, cycle, feedback);
      && |called| == 1 + |Roles(cfg)|
      && forall k :: 0 <= k < |called| ==> called[k] == ObjectedWork(verdict, ids(phase, cycle, k), max, findings)
  {
    hide Roles, Reviews, ObjectedWork;
    var crew := ObjectedCrew(verdict, ids, max, findings);
    ObjectedReviews(verdict, ids, max, findings, Roles(cfg), phase, cycle, |Roles(cfg)|);
    ObjectedDelivered(verdict, ids(phase, cycle, 0), max, findings);
    assert Called(crew, cfg, phase, cycle, feedback) ==
      [ObjectedWork(verdict, ids(phase, cycle, 0), max, findings)] +
      Reviews(crew, Roles(cfg), phase, cycle, |Roles(cfg)|);
  }

  lemma ObjectedDispatches(verdict: Supervisor.Verdict, ids: Ids, max: nat, findings: seq<Finding>)
    requires !verdict.pass && Distinct(ids)
    ensures Dispatches(ObjectedCrew(verdict, ids, max, findings), max)
  {
    hide Told, ObjectedWork;
    forall phase: nat, cycle: nat, slot: nat
      ensures Told(ObjectedWork(verdict, ids(phase, cycle, slot), max, findings), max)
    {
      ObjectedTold(verdict, ids(phase, cycle, slot), max, findings);
    }
  }

  lemma ObjectedRound(verdict: Supervisor.Verdict, ids: Ids, max: nat, findings: seq<Finding>, cfg: Config,
                      phase: nat, cycle: nat, feedback: Option<string>)
    ensures var round := CycleOf(AgentsOf(ObjectedCrew(verdict, ids, max, findings)), cfg, phase, cycle, feedback);
      round.Some? && (round.value.Clean() <==> findings == [])
  {
    hide CycleOf, AgentsOf, Called, Roles;
    var crew := ObjectedCrew(verdict, ids, max, findings);
    CleanIff(crew, cfg, phase, cycle, feedback);
    ObjectedCalled(verdict, ids, max, findings, cfg, phase, cycle, feedback);
    assert Called(crew, cfg, phase, cycle, feedback)[0] in Called(crew, cfg, phase, cycle, feedback);
  }

  lemma QuietObjectedPhase(verdict: Supervisor.Verdict, ids: Ids, max: nat, cfg: Config, phase: nat)
    ensures var outcome := Outcome(AgentsOf(ObjectedCrew(verdict, ids, max, [])), cfg, phase);
      outcome.Some? && outcome.value.clean
  {
    hide CycleOf, AgentsOf, ObjectedCrew;
    var agents := AgentsOf(ObjectedCrew(verdict, ids, max, []));
    ObjectedRound(verdict, ids, max, [], cfg, phase, 0, None);
    RoundsStep(agents, cfg, phase, 0, None, CycleOf(agents, cfg, phase, 0, None));
  }

  /** Under any configuration every job of a plan can be left failed by the supervisor, and the plan come out clean and
      be shipped. */
  lemma ShippedOnFailedJobs(verdict: Supervisor.Verdict, ids: Ids, max: nat, cfg: Config, count: nat)
    returns (crew: Crew, run: PlanRun)
    requires !verdict.pass && Distinct(ids)
    ensures Dispatches(crew, max)
    ensures RunsPhases(AgentsOf(crew), cfg, count, ShipWorks, run) && run.ending.AllClean? && run.ships == 1
    ensures forall phase, cycle, feedback, w, k ::
      w in Called(crew, cfg, phase, cycle, feedback) && 0 <= k < |w.tried| ==> StateLeft(w, k).JobFailure?
  {
    hide Outcome, AgentsOf, Called, Dispatches, RoundsFrom;
    crew := ObjectedCrew(verdict, ids, max, []);
    ObjectedDispatches(verdict, ids, max, []);
    var agents := AgentsOf(crew);
    forall phase: nat
      ensures Outcome(agents, cfg, phase).Some? && Outcome(agents, cfg, phase).value.clean
    {
      QuietObjectedPhase(verdict, ids, max, cfg, phase);
    }
    run := PlanRun(seq(count, (k: nat) requires Outcome(agents, cfg, k).Some? => Outcome(agents, cfg, k).value),
                   AllClean, 1, ["running", "done"]);
    forall phase, cycle, feedback, w, k | w in Called(crew, cfg, phase, cycle, feedback) && 0 <= k < |w.tried|
      ensures StateLeft(w, k).JobFailure?
    {
      ObjectedCalled(verdict, ids, max, [], cfg, phase, cycle, feedback);
      var at :| 0 <= at < |Called(crew, cfg, phase, cycle, feedback)|
        && Called(crew, cfg, phase, cycle, feedback)[at] == w;
      ObjectedTold(verdict, ids(phase, cycle, at), max, []);
      FailedJobs(w, max, k);
    }
  }

  lemma {:induction false} JobsOfExactly(called: seq<Work>, each: nat)
    requires forall k :: 0 <= k < |called| ==> |called[k].tried| == each
    ensures JobsOf(called) == |called| * each
  {
    if called != [] {
      JobsOfExactly(called[1..], each);
      assert |called| * each == each + |called[1..]| * each;
    }
  }

  lemma {:induction false} ObjectedJobs(verdict: Supervisor.Verdict, ids: Ids, max: nat, findings: seq<Finding>,
                                        cfg: Config, phase: nat, rounds: seq<Round>, n: nat)
    requires n <= |rounds|
    ensures JobsIn(ObjectedCrew(verdict, ids, max, findings), cfg, phase, rounds, n) == n * RoundLimit(cfg, max)
  {
    hide Called, JobsOf, Roles, ObjectedCrew;
    if n > 0 {
      var feedback := rounds[n - 1].feedback;
      ObjectedJobs(verdict, ids, max, findings, cfg, phase, rounds, n - 1);
      ObjectedCalled(verdict, ids, max, findings, cfg, phase, n - 1, feedback);
      JobsOfExactly(Called(ObjectedCrew(verdict, ids, max, findings), cfg, phase, n - 1, feedback), max + 1);
      assert n * RoundLimit(cfg, max) == (n - 1) * RoundLimit(cfg, max) + RoundLimit(cfg, max);
    }
  }

  /** The bound is the least one: with something to find in every round it is reached. */
  lemma BoundReached(verdict: Supervisor.Verdict, ids: Ids, max: nat, finding: Finding, cfg: Config, phase: nat)
    returns (crew: Crew)
    requires !verdict.pass && Distinct(ids)
    ensures Dispatches(crew, max)
    ensures var rounds := RoundsFrom(AgentsOf(crew), cfg, phase, 0, None);
      JobsIn(crew, cfg, phase, rounds, |rounds|) == (MaxFixCycles(cfg.maxFixCycles) + 1) * RoundLimit(cfg, max)
  {
    hide Dispatches, RoundLimit, CycleOf, AgentsOf, JobsIn, RoundsFrom, Feedback, ObjectedCrew;
    crew := ObjectedCrew(verdict, ids, max, [finding]);
    ObjectedDispatches(verdict, ids, max, [finding]);
    var rounds := RoundsFrom(AgentsOf(crew), cfg, phase, 0, None);
    var last := |rounds| - 1;
    RoundsMeaning(AgentsOf(crew), cfg, phase, 0, None);
    ObjectedRound(verdict, ids, max, [finding], cfg, phase, last, rounds[last].feedback);
    assert rounds[last].outcome == CycleOf(AgentsOf(crew), cfg, phase, last, rounds[last].feedback);
    ObjectedJobs(verdict, ids, max, [finding], cfg, phase, rounds, |rounds|);
  }
}
