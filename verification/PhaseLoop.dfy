/** One phase of a plan: developer, parallel reviewers and testers, fan-in, and the bounded fix loop;
    and the phases of a plan in sequence, with shipping at the end. */
module PhaseLoop {
  import opened Options
  import opened FanIn

  const DEFAULT_MAX_FIX_CYCLES := 5
  const DEFAULT_REVIEWERS: seq<string> := ["reviewer.arch", "reviewer.frontend"]
  const DEFAULT_TESTERS: seq<string> := ["tester"]

  /** How one fanned-out job ends: its applies_when clause was false, its dispatch failed, or it reported. */
  datatype JobOutcome = Skipped | Failed | Done(result: DispatchResult)

  /** Role lists are optional: no list means the defaults, an empty list means nobody. */
  datatype Config = Config(maxFixCycles: Option<int>, reviewers: Option<seq<string>>, testers: Option<seq<string>>,
                           digest: Digest)

  /** What the agents do: the developer by phase, cycle and feedback; the others by phase, cycle, slot and role. */
  datatype Agents = Agents(develop: (nat, nat, Option<string>) -> Option<DispatchResult>,
                           review: (nat, nat, nat, string) -> JobOutcome)

  function MaxFixCycles(policy: Option<int>): (cycles: nat)
    ensures cycles > 0
    ensures cycles == 5 || policy == Some(cycles)
    ensures policy.Some? && policy.value > 0 ==> policy == Some(cycles)
  {
    if policy.None? || policy.value <= 0 then DEFAULT_MAX_FIX_CYCLES else policy.value
  }

  function Roles(cfg: Config): seq<string> {
    (if cfg.reviewers.None? then DEFAULT_REVIEWERS else cfg.reviewers.value)
      + (if cfg.testers.None? then DEFAULT_TESTERS else cfg.testers.value)
  }

  // ---- Fan-out ----

  const EMPTY_RESULT := DispatchResult([], [], 0)

  function Outcomes(agents: Agents, roles: seq<string>, phase: nat, cycle: nat): seq<JobOutcome> {
    seq(|roles|, k requires 0 <= k < |roles| => agents.review(phase, cycle, k, roles[k]))
  }

  /** A skipped role leaves an empty result in its slot. */
  function ResultOf(outcome: JobOutcome): DispatchResult
    requires outcome != Failed
  {
    match outcome
    case Skipped => EMPTY_RESULT
    case Done(result) => result
  }

  /** In role order whatever the completion order; one failure fails the whole fan-out. */
  function Collected(outcomes: seq<JobOutcome>): Option<seq<DispatchResult>> {
    if Failed in outcomes then None
    else Some(seq(|outcomes|, k requires 0 <= k < |outcomes| && outcomes[k] != Failed => ResultOf(outcomes[k])))
  }

  ghost predicate CompletionOrder(order: seq<nat>, n: nat) {
    && (forall i :: 0 <= i < |order| ==> order[i] < n)
    && (forall i, j :: 0 <= i < j < |order| ==> order[i] != order[j])
    && (forall k: nat :: k < n ==> k in order)
  }

  /** Each job writes its own slot when it completes; the order of completion is arbitrary. */
  method FanOut(outcomes: seq<JobOutcome>, order: seq<nat>) returns (collected: Option<seq<DispatchResult>>)
    requires CompletionOrder(order, |outcomes|)
    ensures collected == Collected(outcomes)
  {
    var results := new Option<DispatchResult>[|outcomes|](_ => None);
    var failed := false;
    for t := 0 to |order|
      modifies results
      invariant failed ==> Failed in outcomes
      invariant !failed ==> forall s :: 0 <= s < t ==> outcomes[order[s]] != Failed
      invariant !failed ==> forall s :: 0 <= s < t ==> results[order[s]] == Some(ResultOf(outcomes[order[s]]))
    {
      var i := order[t];
      match outcomes[i] {
        case Skipped => results[i] := Some(EMPTY_RESULT);
        case Failed => failed := true;
        case Done(result) => results[i] := Some(result);
      }
    }
    if failed {
      return None;
    }
    assert forall k: nat :: k < |outcomes| ==> k in order;
    forall k | 0 <= k < |outcomes|
      ensures outcomes[k] != Failed && results[k] == Some(ResultOf(outcomes[k]))
    {
      assert k in order;
      var s :| 0 <= s < |order| && order[s] == k;
    }
    var all := Collected(outcomes).value;
    var filtered := [];
    for k := 0 to |outcomes|
      modifies {}
      invariant forall j :: 0 <= j < |outcomes| ==> results[j] == Some(all[j])
      invariant filtered == all[..k]
    {
      if results[k].Some? {
        filtered := filtered + [results[k].value];
      }
    }
    assert all[..|outcomes|] == all;
    collected := Some(filtered);
  }

  // ---- The fix loop ----

  datatype Cycle = Cycle(findings: seq<Finding>, artifacts: seq<string>, testsPassed: bool) {
    predicate Clean() { findings == [] && testsPassed }
  }

  datatype PhaseResult = PhaseResult(last: Cycle, fixCycles: nat, clean: bool)

  /** One round: None when a dispatch fails. */
  ghost function CycleOf(agents: Agents, cfg: Config, phase: nat, cycle: nat, feedback: Option<string>): Option<Cycle> {
    var dev := agents.develop(phase, cycle, feedback);
    if dev.None? then None
    else
      var others := Collected(Outcomes(agents, Roles(cfg), phase, cycle));
      if others.None? then None
      else
        var all := Aggregated([dev.value] + others.value);
        Some(Cycle(Deduped(all.findings, cfg.digest), all.artifacts, all.testsPassed))
  }

  ghost predicate Brought(outcome: JobOutcome, result: DispatchResult) {
    if outcome.Skipped? then result == DispatchResult([], [], 0) else outcome == Done(result)
  }

  /** These are the results of a round as the configuration asks for them: the developer's, then one per reviewer and
      one per tester, each in its slot. */
  ghost predicate Asked(agents: Agents, cfg: Config, phase: nat, cycle: nat, feedback: Option<string>,
                        results: seq<DispatchResult>)
  {
    var rs := if cfg.reviewers.Some? then cfg.reviewers.value else ["reviewer.arch", "reviewer.frontend"];
    var ts := if cfg.testers.Some? then cfg.testers.value else ["tester"];
    var asked := rs + ts;
    && |results| == 1 + |asked| && agents.develop(phase, cycle, feedback) == Some(results[0])
    && forall k :: 0 <= k < |asked| ==> Brought(agents.review(phase, cycle, k, asked[k]), results[1 + k])
  }

  lemma AllReport(agents: Agents, roles: seq<string>, phase: nat, cycle: nat, others: seq<DispatchResult>)
    requires Collected(Outcomes(agents, roles, phase, cycle)) == Some(others)
    ensures |others| == |roles|
    ensures forall k :: 0 <= k < |roles| ==> Brought(agents.review(phase, cycle, k, roles[k]), others[k])
  {
    var outcomes := Outcomes(agents, roles, phase, cycle);
    forall k | 0 <= k < |roles|
      ensures Brought(agents.review(phase, cycle, k, roles[k]), others[k])
    {
      assert outcomes[k] in outcomes;
    }
  }

  lemma AskedAll(agents: Agents, cfg: Config, phase: nat, cycle: nat, feedback: Option<string>,
                 results: seq<DispatchResult>)
    ensures Asked(agents, cfg, phase, cycle, feedback, results) <==> (
      && |results| == 1 + |Roles(cfg)| && agents.develop(phase, cycle, feedback) == Some(results[0])
      && forall k :: 0 <= k < |Roles(cfg)| ==> Brought(agents.review(phase, cycle, k, Roles(cfg)[k]), results[1 + k]))
  {
    hide Brought;
  }

  lemma NobodyFails(agents: Agents, cfg: Config, phase: nat, cycle: nat, feedback: Option<string>,
                    results: seq<DispatchResult>)
    requires Asked(agents, cfg, phase, cycle, feedback, results)
    ensures Collected(Outcomes(agents, Roles(cfg), phase, cycle)).Some?
  {
    hide Roles, Asked;
    AskedAll(agents, cfg, phase, cycle, feedback, results);
    forall k | 0 <= k < |Roles(cfg)|
      ensures agents.review(phase, cycle, k, Roles(cfg)[k]) != Failed
    {
      assert Brought(agents.review(phase, cycle, k, Roles(cfg)[k]), results[1 + k]);
    }
  }

  /** A round has a result exactly when every role it asks reports, and then it is made of those reports. */
  lemma RoundAsks(agents: Agents, cfg: Config, phase: nat, cycle: nat, feedback: Option<string>)
    returns (results: seq<DispatchResult>)
    ensures var round, all := CycleOf(agents, cfg, phase, cycle, feedback), Aggregated(results);
      if round.None? then forall other :: !Asked(agents, cfg, phase, cycle, feedback, other)
      else
        && Asked(agents, cfg, phase, cycle, feedback, results)
        && round.value == Cycle(Deduped(all.findings, cfg.digest), all.artifacts, all.testsPassed)
  {
    hide Aggregated, Deduped, Roles, Outcomes, Asked, Collected, Brought;
    results := [];
    var dev := agents.develop(phase, cycle, feedback);
    var others := Collected(Outcomes(agents, Roles(cfg), phase, cycle));
    if dev.Some? && others.Some? {
      results := [dev.value] + others.value;
      AllReport(agents, Roles(cfg), phase, cycle, others.value);
      AskedAll(agents, cfg, phase, cycle, feedback, results);
    } else {
      forall other
        ensures !Asked(agents, cfg, phase, cycle, feedback, other)
      {
        if Asked(agents, cfg, phase, cycle, feedback, other) {
          AskedAll(agents, cfg, phase, cycle, feedback, other);
          NobodyFails(agents, cfg, phase, cycle, feedback, other);
        }
      }
    }
  }

  ghost predicate NoTrace(r: DispatchResult) {
    r.exitCode == 0 && r.findings == []
  }

  lemma NothingFound(results: seq<DispatchResult>, cfg: Config)
    ensures var all := Aggregated(results);
      Cycle(Deduped(all.findings, cfg.digest), all.artifacts, all.testsPassed).Clean() <==>
      forall k :: 0 <= k < |results| ==> NoTrace(results[k])
  {
    hide Aggregated, Deduped, Key;
    var all := Aggregated(results);
    AggregateMeaning(results);
    OnePerKey(all.findings, cfg.digest);
    forall k | 0 <= k < |results|
      ensures results[k] in results && (results[k].findings != [] ==> all.findings != [])
    {
      if results[k].findings != [] { assert results[k].findings[0] in all.findings; }
    }
    if all.findings != [] {
      assert all.findings[0] in all.findings;
    }
  }

  /** The rounds of a phase in order, each with the feedback its developer was given. */
  datatype Round = Round(feedback: Option<string>, outcome: Option<Cycle>)

  ghost function RoundsFrom(agents: Agents, cfg: Config, phase: nat, cycle: nat,
                            feedback: Option<string>)
    : (rounds: seq<Round>)
    requires cycle <= MaxFixCycles(cfg.maxFixCycles)
    ensures rounds != []
    decreases MaxFixCycles(cfg.maxFixCycles) - cycle
  {
    var outcome := CycleOf(agents, cfg, phase, cycle, feedback);
    [Round(feedback, outcome)] +
    if outcome.None? || outcome.value.Clean() || cycle == MaxFixCycles(cfg.maxFixCycles) then []
    else RoundsFrom(agents, cfg, phase, cycle + 1, Some(Feedback(outcome.value.findings)))
  }

  /** A phase's result is its last round. */
  ghost function PhaseOutcome(rounds: seq<Round>): Option<PhaseResult>
    requires rounds != []
  {
    var last := rounds[|rounds| - 1].outcome;
    if last.None? then None else Some(PhaseResult(last.value, |rounds| - 1, last.value.Clean()))
  }

  /** One turn of the loop: developer, fan-out in some completion order, fan-in. */
  method RunCycle(agents: Agents, cfg: Config, phase: nat, cycle: nat, feedback: Option<string>)
    returns (outcome: Option<Cycle>)
    ensures outcome == CycleOf(agents, cfg, phase, cycle, feedback)
  {
    hide Aggregated, Deduped, Collected, Outcomes;
    var dev := agents.develop(phase, cycle, feedback);
    if dev.None? {
      return None;
    }
    var outcomes := Outcomes(agents, Roles(cfg), phase, cycle);
    var order := AnyOrder(|outcomes|);
    var others := FanOut(outcomes, order);
    if others.None? {
      return None;
    }
    var all := AggregateResults([dev.value] + others.value);
    var deduped := DedupeFindings(all.findings, cfg.digest);
    outcome := Some(Cycle(deduped, all.artifacts, all.testsPassed));
  }

  lemma RoundsStep(agents: Agents, cfg: Config, phase: nat, cycle: nat, feedback: Option<string>,
                   outcome: Option<Cycle>)
    requires cycle <= MaxFixCycles(cfg.maxFixCycles)
    requires outcome == CycleOf(agents, cfg, phase, cycle, feedback)
    ensures RoundsFrom(agents, cfg, phase, cycle, feedback) == [Round(feedback, outcome)] +
      if outcome.None? || outcome.value.Clean() || cycle == MaxFixCycles(cfg.maxFixCycles) then []
      else RoundsFrom(agents, cfg, phase, cycle + 1, Some(Feedback(outcome.value.findings)))
  {
  }

  method RunLoop(agents: Agents, cfg: Config, phase: nat)
    returns (result: Option<PhaseResult>, ghost rounds: seq<Round>)
    ensures rounds == RoundsFrom(agents, cfg, phase, 0, None)
    ensures result == PhaseOutcome(RoundsFrom(agents, cfg, phase, 0, None))
  {
    hide CycleOf, Feedback, RoundsFrom;
    var maxCycles := MaxFixCycles(cfg.maxFixCycles);
    var feedback: Option<string> := None;
    var fixCycles := 0;
    rounds := [];
    while true
      invariant fixCycles <= maxCycles && |rounds| == fixCycles
      invariant rounds + RoundsFrom(agents, cfg, phase, fixCycles, feedback) == RoundsFrom(agents, cfg, phase, 0, None)
      decreases maxCycles - fixCycles
    {
      var cycle := RunCycle(agents, cfg, phase, fixCycles, feedback);
      RoundsStep(agents, cfg, phase, fixCycles, feedback, cycle);
      ghost var before := rounds;
      rounds := rounds + [Round(feedback, cycle)];
      if cycle.None? {
        return None, rounds;
      }
      if |cycle.value.findings| == 0 && cycle.value.testsPassed {
        return Some(PhaseResult(cycle.value, fixCycles, true)), rounds;
      }
      if fixCycles >= maxCycles {
        return Some(PhaseResult(cycle.value, fixCycles, false)), rounds;
      }
      var text := BuildFindingFeedback(cycle.value.findings);
      ghost var rest := RoundsFrom(agents, cfg, phase, fixCycles + 1, Some(text));
      assert before + ([Round(feedback, cycle)] + rest) == rounds + rest;
      feedback := Some(text);
      fixCycles := fixCycles + 1;
    }
  }

  /** Some completion order; which one is up to the scheduler. */
  method AnyOrder(n: nat) returns (order: seq<nat>)
    ensures CompletionOrder(order, n)
  {
    order := [];
    for k := 0 to n
      invariant |order| == k
      invariant forall i :: 0 <= i < k ==> order[i] < k
      invariant forall i, j :: 0 <= i < j < k ==> order[i] != order[j]
      invariant forall i: nat :: i < k ==> i in order
    {
      var at :| 0 <= at <= |order|;
      ghost var before := order;
      order := order[..at] + [k] + order[at..];
      forall i: nat | i <= k
        ensures i in order
      {
        if i == k {
          assert order[at] == k;
        } else {
          assert i in before;
          var j :| 0 <= j < |before| && before[j] == i;
          assert order[if j < at then j else j + 1] == i;
        }
      }
    }
  }

  /** The first k rounds neither failed nor came out clean, and told the next developer what they found. */
  lemma {:induction false} RoundsMeaning(agents: Agents, cfg: Config, phase: nat, cycle: nat, feedback: Option<string>)
    requires cycle <= MaxFixCycles(cfg.maxFixCycles)
    ensures var rounds := RoundsFrom(agents, cfg, phase, cycle, feedback);
      && cycle + |rounds| - 1 <= MaxFixCycles(cfg.maxFixCycles)
      && rounds[0].feedback == feedback
      && (forall k :: 0 <= k < |rounds| ==>
            rounds[k].outcome == CycleOf(agents, cfg, phase, cycle + k, rounds[k].feedback))
      && (forall k :: 0 <= k < |rounds| - 1 ==>
            && rounds[k].outcome.Some? && !rounds[k].outcome.value.Clean()
            && rounds[k + 1].feedback == Some(Feedback(rounds[k].outcome.value.findings)))
      && (var last := rounds[|rounds| - 1].outcome;
          last.Some? && !last.value.Clean() ==> cycle + |rounds| - 1 == MaxFixCycles(cfg.maxFixCycles))
    decreases MaxFixCycles(cfg.maxFixCycles) - cycle
  {
    hide CycleOf, Feedback;
    var outcome := CycleOf(agents, cfg, phase, cycle, feedback);
    if !(outcome.None? || outcome.value.Clean() || cycle == MaxFixCycles(cfg.maxFixCycles)) {
      var told := Some(Feedback(outcome.value.findings));
      RoundsMeaning(agents, cfg, phase, cycle + 1, told);
      var rest := RoundsFrom(agents, cfg, phase, cycle + 1, told);
      var rounds := RoundsFrom(agents, cfg, phase, cycle, feedback);
      assert rounds == [Round(feedback, outcome)] + rest;
      forall k | 0 <= k < |rounds|
        ensures rounds[k].outcome == CycleOf(agents, cfg, phase, cycle + k, rounds[k].feedback)
      {
        if k > 0 {
          assert rest[k - 1].outcome == CycleOf(agents, cfg, phase, cycle + 1 + (k - 1), rest[k - 1].feedback);
        }
      }
      forall k | 0 <= k < |rounds| - 1
        ensures rounds[k].outcome.Some? && !rounds[k].outcome.value.Clean()
        ensures rounds[k + 1].feedback == Some(Feedback(rounds[k].outcome.value.findings))
      {
        if k > 0 { assert rounds[k] == rest[k - 1] && rounds[k + 1] == rest[k]; }
      }
    }
  }

  /** A phase is dirty only after the whole budget, ran its developer once more than it fixed, and every
      developer after the first was given the previous round's findings. */
  lemma PhaseMeaning(agents: Agents, cfg: Config, phase: nat)
    ensures var rounds := RoundsFrom(agents, cfg, phase, 0, None);
      var max := MaxFixCycles(cfg.maxFixCycles);
      && |rounds| <= max + 1 && rounds[0].feedback == None
      && (forall k :: 0 <= k < |rounds| - 1 ==> (
            && rounds[k].outcome.Some? && !rounds[k].outcome.value.Clean()
            && rounds[k + 1].feedback == Some(Feedback(rounds[k].outcome.value.findings))))
      && (match PhaseOutcome(rounds)
          case None => exists k :: 0 <= k < |rounds| && CycleOf(agents, cfg, phase, k, rounds[k].feedback).None?
          case Some(result) => (
            && result.fixCycles + 1 == |rounds| && rounds[|rounds| - 1].outcome == Some(result.last)
            && (!result.clean ==> result.fixCycles == max)
            && (result.clean <==> result.last.findings == [] && result.last.testsPassed)))
  {
    hide CycleOf, Feedback;
    RoundsMeaning(agents, cfg, phase, 0, None);
    var rounds := RoundsFrom(agents, cfg, phase, 0, None);
    var n := |rounds| - 1;
    assert rounds[n].outcome == CycleOf(agents, cfg, phase, n, rounds[n].feedback);
  }

  /** In the last round of a clean phase everybody the configuration names, testers included, was skipped or done with
      exit code 0 and nothing found. */
  lemma CleanPhaseAsked(agents: Agents, cfg: Config, phase: nat) returns (results: seq<DispatchResult>)
    requires PhaseOutcome(RoundsFrom(agents, cfg, phase, 0, None)).Some?
    requires PhaseOutcome(RoundsFrom(agents, cfg, phase, 0, None)).value.clean
    ensures var rounds := RoundsFrom(agents, cfg, phase, 0, None);
      Asked(agents, cfg, phase, |rounds| - 1, rounds[|rounds| - 1].feedback, results)
    ensures forall k :: 0 <= k < |results| ==> results[k].exitCode == 0 && results[k].findings == []
  {
    hide CycleOf, Feedback, RoundsFrom, Asked, Aggregated, Deduped;
    RoundsMeaning(agents, cfg, phase, 0, None);
    var rounds := RoundsFrom(agents, cfg, phase, 0, None);
    var n := |rounds| - 1;
    assert rounds[n].outcome == CycleOf(agents, cfg, phase, n, rounds[n].feedback);
    results := RoundAsks(agents, cfg, phase, n, rounds[n].feedback);
    NothingFound(results, cfg);
    assert forall k :: 0 <= k < |results| ==> NoTrace(results[k]);
  }

  // ---- The phases of a plan ----

  datatype Ending = AllClean | StoppedDirty(index: nat) | PhaseError(index: nat) | ShipError

  datatype Shipper = NoShipper | ShipFails | ShipWorks

  datatype PlanRun = PlanRun(phases: seq<PhaseResult>, ending: Ending, ships: nat, states: seq<string>)

  ghost function Outcome(agents: Agents, cfg: Config, phase: nat): Option<PhaseResult> {
    PhaseOutcome(RoundsFrom(agents, cfg, phase, 0, None))
  }

  /** Phases run in order until one fails or stays dirty; only a fully clean plan is shipped. */
  ghost predicate RunsPhases(agents: Agents, cfg: Config, count: nat, shipper: Shipper, run: PlanRun) {
    && |run.phases| <= count
    && (forall k :: 0 <= k < |run.phases| ==> Some(run.phases[k]) == Outcome(agents, cfg, k))
    && (forall k :: 0 <= k < |run.phases| - 1 ==> run.phases[k].clean)
    && (match run.ending
        case PhaseError(i) => (
          && i == |run.phases| < count && Outcome(agents, cfg, i).None? && run.ships == 0
          && (run.phases != [] ==> run.phases[i - 1].clean) && run.states == ["running", "failed"])
        case StoppedDirty(i) => (
          && i + 1 == |run.phases| && !run.phases[i].clean && run.ships == 0
          && run.states == ["running", "failed"])
        case ShipError => (
          && AllPhasesClean(run, count) && shipper == ShipFails && run.ships == 1
          && run.states == ["running", "failed"])
        case AllClean => (
          && AllPhasesClean(run, count) && shipper != ShipFails
          && run.ships == (if shipper == ShipWorks then 1 else 0) && run.states == ["running", "done"]))
  }

  ghost predicate AllPhasesClean(run: PlanRun, count: nat) {
    |run.phases| == count && forall k :: 0 <= k < count ==> run.phases[k].clean
  }

  method RunPhase(agents: Agents, cfg: Config, phase: nat) returns (result: Option<PhaseResult>)
    ensures result == Outcome(agents, cfg, phase)
  {
    ghost var rounds;
    result, rounds := RunLoop(agents, cfg, phase);
  }

  method RunPhasesForPlan(agents: Agents, cfg: Config, phases: seq<string>, shipper: Shipper) returns (run: PlanRun)
    ensures RunsPhases(agents, cfg, |phases|, shipper, run)
  {
    hide Outcome;
    var results: seq<PhaseResult> := [];
    var states := ["running"];
    for i := 0 to |phases|
      invariant |results| == i && states == ["running"]
      invariant forall k :: 0 <= k < i ==> Some(results[k]) == Outcome(agents, cfg, k) && results[k].clean
    {
      var result := RunPhase(agents, cfg, i);
      if result.None? {
        return PlanRun(results, PhaseError(i), 0, states + ["failed"]);
      }
      results := results + [result.value];
      if !result.value.clean {
        return PlanRun(results, StoppedDirty(i), 0, states + ["failed"]);
      }
    }
    var ships := 0;
    if shipper != NoShipper {
      ships := ships + 1;
      if shipper == ShipFails {
        return PlanRun(results, ShipError, ships, states + ["failed"]);
      }
    }
    run := PlanRun(results, AllClean, ships, states + ["done"]);
  }

  predicate Good(outcome: Option<PhaseResult>) {
    outcome.Some? && outcome.value.clean
  }

  /** How a plan ends is decided by its first phase that fails or stays dirty, and without one by its shipper. */
  lemma RunsPhasesMeaning(agents: Agents, cfg: Config, count: nat, shipper: Shipper, run: PlanRun)
    requires RunsPhases(agents, cfg, count, shipper, run)
    ensures var all := forall k :: 0 <= k < count ==> Good(Outcome(agents, cfg, k));
      && (run.ending == ShipError <==> all && shipper == ShipFails)
      && (run.ending == AllClean <==> all && shipper != ShipFails)
      && run.ships == (if all && shipper != NoShipper then 1 else 0)
      && run.states == ["running", if all && shipper != ShipFails then "done" else "failed"]
    ensures forall i :: 0 <= i < count && (forall k :: 0 <= k < i ==> Good(Outcome(agents, cfg, k))) ==>
      && (run.ending == PhaseError(i) <==> Outcome(agents, cfg, i).None?)
      && (run.ending == StoppedDirty(i) <==> Outcome(agents, cfg, i).Some? && !Outcome(agents, cfg, i).value.clean)
  {
    hide Outcome;
    var n := |run.phases|;
    assert forall k :: 0 <= k < n - 1 ==> Good(Outcome(agents, cfg, k));
    if run.ending.StoppedDirty? { assert !Good(Outcome(agents, cfg, n - 1)); }
    if run.ending.PhaseError? { assert !Good(Outcome(agents, cfg, n)); }
    if n > 0 { assert Good(Outcome(agents, cfg, n - 1)) <==> run.phases[n - 1].clean; }
  }

  /** RunsPhases leaves no choice: the run is determined by what the agents and the shipper do. */
  lemma RunIsDetermined(agents: Agents, cfg: Config, count: nat, shipper: Shipper, a: PlanRun, b: PlanRun)
    requires RunsPhases(agents, cfg, count, shipper, a) && RunsPhases(agents, cfg, count, shipper, b)
    ensures a == b
  {
    hide Outcome;
    NoLonger(agents, cfg, count, shipper, a, b);
    NoLonger(agents, cfg, count, shipper, b, a);
    assert forall k :: 0 <= k < |a.phases| ==> Some(a.phases[k]) == Outcome(agents, cfg, k) == Some(b.phases[k]);
    assert a.phases == b.phases;
  }

  lemma NoLonger(agents: Agents, cfg: Config, count: nat, shipper: Shipper, a: PlanRun, b: PlanRun)
    requires RunsPhases(agents, cfg, count, shipper, a) && RunsPhases(agents, cfg, count, shipper, b)
    ensures |b.phases| <= |a.phases|
  {
    hide Outcome;
    forall k | 0 <= k < |a.phases| && k < |b.phases|
      ensures a.phases[k] == b.phases[k]
    {
      assert Some(a.phases[k]) == Outcome(agents, cfg, k) == Some(b.phases[k]);
    }
  }

  // ---- A plan that goes well ----

  const GOOD_PHASE := PhaseResult(Cycle([], [], true), 0, true)

  /** A developer with nothing to report, and nobody else called upon. */
  function QuietAgents(): Agents {
    Agents((phase, cycle, feedback) => Some(EMPTY_RESULT), (phase, cycle, slot, role) => Skipped)
  }

  lemma {:induction false} NothingAggregated(n: nat)
    ensures Aggregated(seq(n, _ => EMPTY_RESULT)) == Aggregate([], [], true)
  {
    var all := seq(n, _ => EMPTY_RESULT);
    if n > 0 {
      NothingAggregated(n - 1);
      assert all[..n - 1] == seq(n - 1, _ => EMPTY_RESULT);
    }
  }

  lemma QuietOutcome(cfg: Config, phase: nat)
    ensures Outcome(QuietAgents(), cfg, phase) == Some(GOOD_PHASE)
  {
    hide Aggregated;
    var roles := Roles(cfg);
    var outcomes := Outcomes(QuietAgents(), roles, phase, 0);
    assert forall k :: 0 <= k < |outcomes| ==> outcomes[k] == Skipped;
    var others := Collected(outcomes);
    assert others.Some? && |others.value| == |roles|;
    assert forall k :: 0 <= k < |roles| ==> others.value[k] == ResultOf(outcomes[k]) == EMPTY_RESULT;
    assert [EMPTY_RESULT] + others.value == seq(|roles| + 1, _ => EMPTY_RESULT);
    NothingAggregated(|roles| + 1);
    assert Deduped([], cfg.digest) == [];
    var cycle := Some(Cycle([], [], true));
    assert CycleOf(QuietAgents(), cfg, phase, 0, None) == cycle;
    RoundsStep(QuietAgents(), cfg, phase, 0, None, cycle);
  }

  /** Any plan can come out clean and be shipped. */
  lemma SomeCleanRun(cfg: Config, count: nat) returns (run: PlanRun)
    ensures RunsPhases(QuietAgents(), cfg, count, ShipWorks, run) && run.ending.AllClean? && run.ships == 1
  {
    hide Outcome;
    run := PlanRun(seq(count, _ => GOOD_PHASE), AllClean, 1, ["running", "done"]);
    forall k: nat
      ensures Outcome(QuietAgents(), cfg, k) == Some(GOOD_PHASE)
    {
      QuietOutcome(cfg, k);
    }
  }
}
