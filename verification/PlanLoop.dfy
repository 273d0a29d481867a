/** The plan loop: each resume rebuilds its state from the event log, runs the approved plan or offers the next one,
    and pauses. Any resume may be cut short after any of its writes. */
module PlanLoop {
  import opened Options
  import opened Manifest
  import P = PhaseLoop

  /** The events of the run that the loop reads back; everything else is Other. */
  datatype Event = PhaseStarted(planId: int) | PlanShipped(planId: int) | Other

  datatype Plans = Plans(completed: set<int>, active: set<int>)

  function Seen(p: Plans, e: Event): Plans {
    match e
    case PlanShipped(id) => if id > 0 then Plans(p.completed + {id}, p.active - {id}) else p
    case PhaseStarted(id) => if id > 0 && id !in p.completed then Plans(p.completed, p.active + {id}) else p
    case Other => p
  }

  function Replay(log: seq<Event>): Plans {
    if log == [] then Plans({}, {}) else Seen(Replay(log[..|log| - 1]), log[|log| - 1])
  }

  /** Completed are the plans ever shipped, active those started and never shipped. */
  lemma {:induction false} ReplayMeaning(log: seq<Event>)
    ensures forall id :: id in Replay(log).completed <==> id > 0 && PlanShipped(id) in log
    ensures forall id :: id in Replay(log).active <==> id > 0 && PhaseStarted(id) in log && PlanShipped(id) !in log
  {
    if log != [] {
      ReplayMeaning(log[..|log| - 1]);
      assert log == log[..|log| - 1] + [log[|log| - 1]];
    }
  }

  method ReconstructPlanState(events: seq<Event>) returns (completed: set<int>, active: set<int>)
    ensures Plans(completed, active) == Replay(events)
  {
    completed, active := {}, {};
    for k := 0 to |events|
      invariant Plans(completed, active) == Replay(events[..k])
    {
      assert events[..k + 1][..k] == events[..k];
      match events[k] {
        case PlanShipped(id) =>
          if id > 0 {
            completed := completed + {id};
            active := active - {id};
          }
        case PhaseStarted(id) =>
          if id > 0 && id !in completed {
            active := active + {id};
          }
        case Other =>
      }
    }
    assert events[..|events|] == events;
  }

  // ---- What a resume writes ----

  /** Attention items by their question. Those raised by the phase loop and the shipper cannot be resumed from. */
  datatype Item = SpecApproved | PlanApproved(planId: int) | Unresumable

  datatype Write = Log(event: Event) | Insert(item: Item)

  datatype Store = Store(log: seq<Event>, items: seq<Item>)

  function Written(s: Store, w: Write): Store {
    match w
    case Log(e) => Store(s.log + [e], s.items)
    case Insert(item) => Store(s.log, s.items + [item])
  }

  function WrittenAll(s: Store, ws: seq<Write>): Store {
    if ws == [] then s else Written(WrittenAll(s, ws[..|ws| - 1]), ws[|ws| - 1])
  }

  /** How a plan's turn goes: whether the planner delivers, and what running its phases comes to. */
  datatype Turn = Turn(planned: bool, agents: P.Agents, cfg: P.Config, shipper: P.Shipper, run: P.PlanRun)

  datatype Command = Command(item: Item, turn: Turn)

  function FindPlan(plans: seq<PlanEntry>, id: int): (found: Option<PlanEntry>)
    ensures found.Some? ==> found.value in plans && found.value.id == id
    ensures found.None? <==> id !in Ids(plans)
  {
    if plans == [] then None
    else if plans[0].id == id then Some(plans[0])
    else
      IdsRest(plans);
      FindPlan(plans[1..], id)
  }

  lemma IdsRest(plans: seq<PlanEntry>)
    requires plans != []
    ensures Ids(plans) == {plans[0].id} + Ids(plans[1..])
  {
    forall id
      ensures id in Ids(plans) <==> id == plans[0].id || id in Ids(plans[1..])
    {
      if id in Ids(plans) && id != plans[0].id {
        var k :| 0 <= k < |plans| && plans[k].id == id;
        assert plans[1..][k - 1].id == id;
      }
      if id in Ids(plans[1..]) {
        var k :| 0 <= k < |plans[1..]| && plans[1..][k].id == id;
        assert plans[k + 1].id == id;
      }
    }
  }

  /** One announcement per phase begun, and what else the phase logs. */
  function PhaseWrites(id: int, begun: nat): seq<Write> {
    if begun == 0 then [] else PhaseWrites(id, begun - 1) + [Log(PhaseStarted(id)), Log(Other)]
  }

  function Begun(run: P.PlanRun): nat {
    |run.phases| + if run.ending.PhaseError? then 1 else 0
  }

  /** A dirty phase raises an item; the shipper raises one before it ships and logs the shipping when it works. */
  function RunWrites(id: int, run: P.PlanRun): seq<Write> {
    PhaseWrites(id, Begun(run))
      + (if run.ending.StoppedDirty? || run.ships > 0 then [Insert(Unresumable)] else [])
      + (if run.ending.AllClean? && run.ships > 0 then [Log(PlanShipped(id))] else [])
  }

  /** Activate the first ready plan and ask for its approval, in that order. */
  function NextWrites(m: PlanManifest, cap: int, p: Plans): seq<Write> {
    var ready := Ready(m.plans, cap, p.completed, p.active);
    if ready == [] then [] else [Log(PhaseStarted(ready[0].id)), Insert(PlanApproved(ready[0].id))]
  }

  function NextPlans(m: PlanManifest, cap: int, p: Plans): Plans {
    var ready := Ready(m.plans, cap, p.completed, p.active);
    if ready == [] then p else Plans(p.completed, p.active + {ready[0].id})
  }

  predicate Runs(m: PlanManifest, cmd: Command) {
    cmd.item.PlanApproved? && cmd.item.planId > 0 && cmd.item.planId in Ids(m.plans) && cmd.turn.planned
  }

  predicate Finishes(m: PlanManifest, cmd: Command) {
    Runs(m, cmd) && cmd.turn.run.ending.AllClean?
  }

  function Finished(p: Plans, id: int): Plans {
    Plans(p.completed + {id}, p.active - {id})
  }

  /** The writes up to the point where the next plan is chosen. */
  function TurnWrites(m: PlanManifest, cmd: Command): seq<Write> {
    if !Runs(m, cmd) then []
    else
      [Log(PhaseStarted(cmd.item.planId))] + RunWrites(cmd.item.planId, cmd.turn.run)
        + if Finishes(m, cmd) then [Log(PlanShipped(cmd.item.planId))] else []
  }

  predicate Offers(m: PlanManifest, cmd: Command) {
    cmd.item.SpecApproved? || Finishes(m, cmd)
  }

  /** The loop's own view when it chooses the next plan. */
  function TurnPlans(m: PlanManifest, p: Plans, cmd: Command): Plans {
    if Finishes(m, cmd) then Finished(p, cmd.item.planId) else p
  }

  function WritesOf(m: PlanManifest, cap: int, p: Plans, cmd: Command): seq<Write> {
    TurnWrites(m, cmd) + if Offers(m, cmd) then NextWrites(m, cap, TurnPlans(m, p, cmd)) else []
  }

  /** The completed and active sets in memory when the resume returns. */
  function MemoryAfter(m: PlanManifest, cap: int, p: Plans, cmd: Command): Plans {
    if Offers(m, cmd) then NextPlans(m, cap, TurnPlans(m, p, cmd)) else p
  }

  /** The turn is one the phase loop can produce for that plan. */
  ghost predicate Faithful(m: PlanManifest, cmd: Command) {
    cmd.item.PlanApproved? ==>
      var plan := FindPlan(m.plans, cmd.item.planId);
      plan.Some? ==>
        P.RunsPhases(cmd.turn.agents, cmd.turn.cfg, |plan.value.phases|, cmd.turn.shipper, cmd.turn.run)
  }

  lemma {:induction false} PhaseAccount(id: int, begun: nat, w: Write)
    requires w != Log(Other)
    ensures multiset(PhaseWrites(id, begun))[w] == if w == Log(PhaseStarted(id)) then begun else 0
  {
    if begun > 0 {
      PhaseAccount(id, begun - 1, w);
    }
  }

  lemma RunAccount(id: int, run: P.PlanRun, w: Write)
    requires w != Log(Other)
    ensures multiset(RunWrites(id, run))[w] ==
      if w == Insert(Unresumable) && (run.ending.StoppedDirty? || run.ships > 0) then 1
      else if w == Log(PlanShipped(id)) && run.ending.AllClean? && run.ships > 0 then 1
      else if w == Log(PhaseStarted(id)) then |run.phases| + (if run.ending.PhaseError? then 1 else 0)
      else 0
  {
    hide PhaseWrites;
    PhaseAccount(id, Begun(run), w);
  }

  lemma TurnAccount(m: PlanManifest, cmd: Command, w: Write)
    ensures multiset(TurnWrites(m, cmd))[w] ==
      if !Runs(m, cmd) then 0
      else
        multiset(RunWrites(cmd.item.planId, cmd.turn.run))[w]
        + (if w == Log(PhaseStarted(cmd.item.planId)) then 1 else 0)
        + (if w == Log(PlanShipped(cmd.item.planId)) && Finishes(m, cmd) then 1 else 0)
  {
    hide RunWrites;
  }

  lemma NextAccount(m: PlanManifest, cap: int, p: Plans, w: Write)
    ensures var ready := Ready(m.plans, cap, p.completed, p.active);
      multiset(NextWrites(m, cap, p))[w] ==
        if ready != [] && (w == Log(PhaseStarted(ready[0].id)) || w == Insert(PlanApproved(ready[0].id))) then 1 else 0
  {
    hide Ready;
  }

  /** What an undisturbed resume writes and how often: the plan is announced when its turn starts and once per phase
      begun; an item is raised for a dirty phase or by a shipper; a finished plan is logged as shipped, twice with a
      shipper; the foremost of the plans then waiting is announced and offered once. */
  lemma ResumeAccount(m: PlanManifest, cap: int, p: Plans, cmd: Command, w: Write)
    requires w != Log(Other)
    ensures var run, id := cmd.turn.run, if cmd.item.PlanApproved? then cmd.item.planId else 0;
      var runs := id > 0 && id in Ids(m.plans) && cmd.turn.planned;
      var clean := runs && run.ending.AllClean?;
      var mid := if clean then Plans(p.completed + {id}, p.active - {id}) else p;
      var offered := (cmd.item.SpecApproved? || clean) && (exists n ::
        && Foremost(m.plans, n, cap, mid.completed, mid.active)
        && (w == Insert(PlanApproved(m.plans[n].id)) || w == Log(PhaseStarted(m.plans[n].id))));
      multiset(WritesOf(m, cap, p, cmd))[w] == (if offered then 1 else 0) +
        match w
        case Insert(PlanApproved(_)) => 0
        case Insert(SpecApproved) => 0
        case Insert(Unresumable) => if runs && (run.ending.StoppedDirty? || run.ships > 0) then 1 else 0
        case Log(PlanShipped(x)) => if clean && x == id then (if run.ships > 0 then 2 else 1) else 0
        case Log(_) =>
          if runs && w == Log(PhaseStarted(id)) then 1 + |run.phases| + (if run.ending.PhaseError? then 1 else 0) else 0
  {
    hide Ready, RunWrites, TurnWrites, NextWrites, Foremost;
    if Runs(m, cmd) {
      RunAccount(cmd.item.planId, cmd.turn.run, w);
    }
    TurnAccount(m, cmd, w);
    var mid := TurnPlans(m, p, cmd);
    NextAccount(m, cap, mid, w);
    FirstIsForemost(m.plans, cap, mid.completed, mid.active);
    OneForemost(m.plans, cap, mid.completed, mid.active);
  }

  /** Once a turn has logged its plan as shipped, all it still does is log that again; the item of a shipper and every
      announcement of the plan come before. */
  lemma ShippedLast(m: PlanManifest, cmd: Command, i: nat, j: nat)
    requires i < j < |TurnWrites(m, cmd)| && TurnWrites(m, cmd)[i].Log? && TurnWrites(m, cmd)[i].event.PlanShipped?
    ensures TurnWrites(m, cmd)[j] == TurnWrites(m, cmd)[i] == Log(PlanShipped(cmd.item.planId))
  {
    PhaseWritesAreTurn(cmd.item.planId, Begun(cmd.turn.run));
    PhaseWritesNotShipped(cmd.item.planId, Begun(cmd.turn.run));
  }

  lemma {:induction false} PhaseWritesNotShipped(id: int, begun: nat)
    ensures forall k :: 0 <= k < |PhaseWrites(id, begun)| ==>
      PhaseWrites(id, begun)[k].Log? && !PhaseWrites(id, begun)[k].event.PlanShipped?
  {
    if begun > 0 {
      PhaseWritesNotShipped(id, begun - 1);
    }
  }

  // ---- What holds after every single write ----

  ghost predicate Sound(m: PlanManifest) {
    WellFormed(m) && !Cyclic(m.plans)
  }

  /** Offers are for known plans, seen as started, whose dependencies are all completed. */
  ghost predicate Inv(m: PlanManifest, s: Store) {
    var p := Replay(s.log);
    && p.completed <= Ids(m.plans) && p.active <= Ids(m.plans) && p.completed !! p.active
    && forall id :: PlanApproved(id) in s.items ==> Offerable(m, p, id)
  }

  ghost predicate Offerable(m: PlanManifest, p: Plans, id: int) {
    && id in Ids(m.plans) && id > 0
    && (id in p.completed || id in p.active)
    && forall d :: d in BlocksOn(m.plans, id) ==> d in p.completed
  }

  /** Every active plan has been offered for approval. */
  ghost predicate NoneStranded(s: Store) {
    forall id :: id in Replay(s.log).active ==> PlanApproved(id) in s.items
  }

  lemma ReplayMore(log: seq<Event>, e: Event)
    ensures Replay(log + [e]) == Seen(Replay(log), e)
  {
    assert (log + [e])[..|log|] == log;
  }

  /** The items and the replayed state after a write. */
  lemma WrittenMeaning(s: Store, w: Write)
    ensures var after := Written(s, w);
      match w
      case Log(e) => Replay(after.log) == Seen(Replay(s.log), e) && after.items == s.items
      case Insert(item) => Replay(after.log) == Replay(s.log) && after.items == s.items + [item]
  {
    if w.Log? {
      ReplayMore(s.log, w.event);
    }
  }

  lemma {:induction false} WrittenJoin(s: Store, a: seq<Write>, b: seq<Write>)
    ensures WrittenAll(s, a + b) == WrittenAll(WrittenAll(s, a), b)
  {
    if b == [] {
      assert a + b == a;
    } else {
      assert (a + b)[..|a + b| - 1] == a + b[..|b| - 1];
      WrittenJoin(s, a, b[..|b| - 1]);
    }
  }

  /** The invariant at every point the writes can be cut. */
  ghost predicate Throughout(m: PlanManifest, s: Store, ws: seq<Write>) {
    forall k :: 0 <= k <= |ws| ==> Inv(m, WrittenAll(s, ws[..k]))
  }

  lemma ThroughoutJoin(m: PlanManifest, s: Store, a: seq<Write>, b: seq<Write>)
    requires Throughout(m, s, a) && Throughout(m, WrittenAll(s, a), b)
    ensures Throughout(m, s, a + b)
  {
    hide Inv, WrittenAll;
    forall k | 0 <= k <= |a + b|
      ensures Inv(m, WrittenAll(s, (a + b)[..k]))
    {
      if k <= |a| {
        assert (a + b)[..k] == a[..k];
      } else {
        assert (a + b)[..k] == a + b[..k - |a|];
        WrittenJoin(s, a, b[..k - |a|]);
      }
    }
  }

  lemma ThroughoutOne(m: PlanManifest, s: Store, w: Write)
    requires Inv(m, s) && Inv(m, Written(s, w))
    ensures Throughout(m, s, [w]) && WrittenAll(s, [w]) == Written(s, w)
  {
    hide Inv;
    assert [w][..1] == [w] && [w][..0] == [];
    assert WrittenAll(s, [w]) == Written(WrittenAll(s, []), w);
  }

  lemma ThroughoutNone(m: PlanManifest, s: Store)
    requires Inv(m, s)
    ensures Throughout(m, s, []) && WrittenAll(s, []) == s
  {
  }

  /** Nothing but these kinds of writes happens inside a turn; none of them can break the invariant, and an offered plan
      stays offered. */
  predicate TurnWrite(w: Write, id: int) {
    match w
    case Log(Other) => true
    case Log(PhaseStarted(started)) => started == id
    case Log(PlanShipped(shipped)) => shipped == id
    case Insert(item) => item.Unresumable?
  }

  lemma TurnWriteKeeps(m: PlanManifest, s: Store, w: Write, id: int)
    requires Inv(m, s) && PlanApproved(id) in s.items && TurnWrite(w, id)
    ensures Inv(m, Written(s, w)) && PlanApproved(id) in Written(s, w).items
    ensures NoneStranded(s) ==> NoneStranded(Written(s, w))
  {
    hide Replay, BlocksOn;
    WrittenMeaning(s, w);
    assert Offerable(m, Replay(s.log), id);
    var after := Written(s, w);
    forall other | PlanApproved(other) in after.items
      ensures Offerable(m, Replay(after.log), other)
    {
      assert PlanApproved(other) in s.items;
      assert Offerable(m, Replay(s.log), other);
    }
    if NoneStranded(s) {
      forall other | other in Replay(after.log).active
        ensures PlanApproved(other) in after.items
      {
        assert other in Replay(s.log).active || other == id;
      }
    }
  }

  lemma {:induction false} TurnWritesKeep(m: PlanManifest, s: Store, ws: seq<Write>, id: int)
    requires Inv(m, s) && PlanApproved(id) in s.items && forall k :: 0 <= k < |ws| ==> TurnWrite(ws[k], id)
    ensures Inv(m, WrittenAll(s, ws)) && PlanApproved(id) in WrittenAll(s, ws).items
    ensures NoneStranded(s) ==> NoneStranded(WrittenAll(s, ws))
  {
    hide Inv, NoneStranded, Written, TurnWrite;
    if ws != [] {
      TurnWritesKeep(m, s, ws[..|ws| - 1], id);
      TurnWriteKeeps(m, WrittenAll(s, ws[..|ws| - 1]), ws[|ws| - 1], id);
    }
  }

  lemma {:induction false} PhaseWritesAreTurn(id: int, begun: nat)
    ensures forall k :: 0 <= k < |PhaseWrites(id, begun)| ==> TurnWrite(PhaseWrites(id, begun)[k], id)
  {
    if begun > 0 {
      PhaseWritesAreTurn(id, begun - 1);
    }
  }

  lemma TurnWritesAreTurn(m: PlanManifest, cmd: Command)
    requires Runs(m, cmd)
    ensures forall k :: 0 <= k < |TurnWrites(m, cmd)| ==> TurnWrite(TurnWrites(m, cmd)[k], cmd.item.planId)
  {
    PhaseWritesAreTurn(cmd.item.planId, Begun(cmd.turn.run));
  }

  /** At every cut inside a turn: the invariant, and nobody newly stranded. */
  lemma TurnSafe(m: PlanManifest, s: Store, cmd: Command, k: nat)
    requires Inv(m, s) && (cmd.item in s.items) && k <= |TurnWrites(m, cmd)|
    ensures var after := WrittenAll(s, TurnWrites(m, cmd)[..k]);
      Inv(m, after) && (NoneStranded(s) ==> NoneStranded(after))
  {
    hide Inv, NoneStranded, TurnWrite;
    if Runs(m, cmd) {
      TurnWritesAreTurn(m, cmd);
      TurnWritesKeep(m, s, TurnWrites(m, cmd)[..k], cmd.item.planId);
    }
  }

  // ---- The loop's memory is the replay of its log ----

  lemma {:induction false} ReplayPhases(s: Store, id: int, begun: nat)
    requires id > 0
    ensures var p := Replay(s.log);
      Replay(WrittenAll(s, PhaseWrites(id, begun)).log) ==
        if begun > 0 && id !in p.completed then Plans(p.completed, p.active + {id}) else p
  {
    hide Replay;
    if begun > 0 {
      ReplayPhases(s, id, begun - 1);
      var before := WrittenAll(s, PhaseWrites(id, begun - 1));
      WrittenJoin(s, PhaseWrites(id, begun - 1), [Log(PhaseStarted(id)), Log(Other)]);
      TwoWrites(before, Log(PhaseStarted(id)), Log(Other));
      WrittenMeaning(before, Log(PhaseStarted(id)));
      WrittenMeaning(Written(before, Log(PhaseStarted(id))), Log(Other));
    }
  }

  lemma OneWrite(s: Store, w: Write)
    ensures WrittenAll(s, [w]) == Written(s, w) && WrittenAll(s, []) == s
  {
    assert [w][..0] == [];
    assert WrittenAll(s, [w]) == Written(WrittenAll(s, []), w);
  }

  lemma TwoWrites(s: Store, v: Write, w: Write)
    ensures WrittenAll(s, [v, w]) == Written(Written(s, v), w)
  {
    OneWrite(s, v);
    assert [v, w][..1] == [v];
    assert WrittenAll(s, [v, w]) == Written(WrittenAll(s, [v]), w);
  }

  lemma ReplayRun(s: Store, id: int, run: P.PlanRun)
    requires id > 0
    ensures var p := Replay(s.log);
      var q := if Begun(run) > 0 && id !in p.completed then Plans(p.completed, p.active + {id}) else p;
      Replay(WrittenAll(s, RunWrites(id, run)).log) ==
        if run.ending.AllClean? && run.ships > 0 then Finished(q, id) else q
  {
    hide Replay;
    var phases := PhaseWrites(id, Begun(run));
    var items := if run.ending.StoppedDirty? || run.ships > 0 then [Insert(Unresumable)] else [];
    var shipped := if run.ending.AllClean? && run.ships > 0 then [Log(PlanShipped(id))] else [];
    ReplayPhases(s, id, Begun(run));
    WrittenJoin(s, phases + items, shipped);
    WrittenJoin(s, phases, items);
    var afterPhases := WrittenAll(s, phases);
    OneWrite(afterPhases, Insert(Unresumable));
    WrittenMeaning(afterPhases, Insert(Unresumable));
    var afterItems := WrittenAll(afterPhases, items);
    OneWrite(afterItems, Log(PlanShipped(id)));
    WrittenMeaning(afterItems, Log(PlanShipped(id)));
  }

  /** After a turn the log replays to what the loop holds in memory. */
  lemma ReplayTurn(m: PlanManifest, s: Store, cmd: Command)
    requires Inv(m, s) && cmd.item in s.items
    ensures Replay(WrittenAll(s, TurnWrites(m, cmd)).log) == TurnPlans(m, Replay(s.log), cmd)
  {
    hide Replay, BlocksOn;
    if Runs(m, cmd) {
      var id := cmd.item.planId;
      var p := Replay(s.log);
      assert Offerable(m, p, id);
      var started := [Log(PhaseStarted(id))];
      var ran := RunWrites(id, cmd.turn.run);
      var shipped := if Finishes(m, cmd) then [Log(PlanShipped(id))] else [];
      WrittenJoin(s, started + ran, shipped);
      WrittenJoin(s, started, ran);
      OneWrite(s, Log(PhaseStarted(id)));
      WrittenMeaning(s, Log(PhaseStarted(id)));
      var afterStart := WrittenAll(s, started);
      assert Replay(afterStart.log) == p;
      ReplayRun(afterStart, id, cmd.turn.run);
      var afterRun := WrittenAll(afterStart, ran);
      OneWrite(afterRun, Log(PlanShipped(id)));
      WrittenMeaning(afterRun, Log(PlanShipped(id)));
    }
  }

  lemma NextWritesMeaning(m: PlanManifest, cap: int, s: Store)
    requires Sound(m) && Inv(m, s)
    ensures var p := Replay(s.log);
      var after := WrittenAll(s, NextWrites(m, cap, p));
      && Replay(after.log) == NextPlans(m, cap, p)
      && Throughout(m, s, NextWrites(m, cap, p))
      && (NoneStranded(s) ==> NoneStranded(after))
      && (NextWrites(m, cap, p) != [] ==> !NoneStranded(WrittenAll(s, NextWrites(m, cap, p)[..1])))
  {
    hide Replay, BlocksOn, Ready, Written, WellFormed, Cyclic;
    var p := Replay(s.log);
    var ready := Ready(m.plans, cap, p.completed, p.active);
    if ready == [] {
      ThroughoutNone(m, s);
    } else {
      var plan := ready[0];
      OfferIsSound(m, cap, p);
      var start, offer := Log(PhaseStarted(plan.id)), Insert(PlanApproved(plan.id));
      var mid := Written(s, start);
      var after := Written(mid, offer);
      WrittenMeaning(s, start);
      WrittenMeaning(mid, offer);
      StartKeeps(m, s, mid, plan.id);
      OfferKeeps(m, mid, after, plan.id);
      ThroughoutOne(m, s, start);
      ThroughoutOne(m, mid, offer);
      ThroughoutJoin(m, s, [start], [offer]);
      TwoWrites(s, start, offer);
      assert [start] + [offer] == [start, offer] && [start, offer][..1] == [start];
      if NoneStranded(s) {
        OfferFinds(s, after, p, plan.id);
      }
      assert PlanApproved(plan.id) in s.items ==> Offerable(m, p, plan.id);
      assert plan.id in Replay(mid.log).active && PlanApproved(plan.id) !in mid.items;
    }
  }

  /** A ready plan is a known one that nobody has started, with its dependencies completed. */
  lemma OfferIsSound(m: PlanManifest, cap: int, p: Plans)
    requires Sound(m) && Ready(m.plans, cap, p.completed, p.active) != []
    ensures var plan := Ready(m.plans, cap, p.completed, p.active)[0];
      && plan.id in Ids(m.plans) && plan.id > 0 && plan.id !in p.completed && plan.id !in p.active
      && forall d :: d in BlocksOn(m.plans, plan.id) ==> d in p.completed
  {
    hide Cyclic, Ready;
    var plan := Ready(m.plans, cap, p.completed, p.active)[0];
    ReadyIsSafe(m.plans, cap, p.completed, p.active);
    assert plan in Ready(m.plans, cap, p.completed, p.active);
    var k :| 0 <= k < |m.plans| && m.plans[k] == plan;
    BlocksOnIs(m.plans, k);
  }

  lemma StartKeeps(m: PlanManifest, s: Store, mid: Store, id: int)
    requires Inv(m, s) && id in Ids(m.plans) && id > 0
    requires id !in Replay(s.log).completed
    requires Replay(mid.log) == Seen(Replay(s.log), PhaseStarted(id)) && mid.items == s.items
    ensures Inv(m, mid)
  {
    hide Replay, BlocksOn;
    forall other | PlanApproved(other) in mid.items
      ensures Offerable(m, Replay(mid.log), other)
    {
      assert Offerable(m, Replay(s.log), other);
    }
  }

  lemma OfferKeeps(m: PlanManifest, mid: Store, after: Store, id: int)
    requires Inv(m, mid) && Offerable(m, Replay(mid.log), id)
    requires Replay(after.log) == Replay(mid.log) && after.items == mid.items + [PlanApproved(id)]
    ensures Inv(m, after)
  {
    hide Replay, BlocksOn, Offerable;
  }

  lemma OfferFinds(s: Store, after: Store, p: Plans, id: int)
    requires NoneStranded(s) && p == Replay(s.log)
    requires Replay(after.log).active <= p.active + {id} && after.items == s.items + [PlanApproved(id)]
    ensures NoneStranded(after)
  {
    hide Replay;
  }

  /** After an undisturbed resume, replaying the log gives exactly the sets the loop holds in memory, so the next
      resume starts where a loop that never stopped would be. */
  lemma MemoryIsReplay(m: PlanManifest, cap: int, s: Store, cmd: Command)
    requires Sound(m) && Inv(m, s) && cmd.item in s.items
    ensures var p := Replay(s.log);
      Replay(WrittenAll(s, WritesOf(m, cap, p, cmd)).log) == MemoryAfter(m, cap, p, cmd)
  {
    hide Replay, Inv, TurnWrites, NextWrites, NextPlans, WellFormed, Cyclic;
    var p := Replay(s.log);
    ReplayTurn(m, s, cmd);
    var turn := TurnWrites(m, cmd);
    TurnSafe(m, s, cmd, |turn|);
    assert turn[..|turn|] == turn && turn + [] == turn;
    var mid := WrittenAll(s, turn);
    WrittenJoin(s, turn, NextWrites(m, cap, TurnPlans(m, p, cmd)));
    if Offers(m, cmd) {
      NextWritesMeaning(m, cap, mid);
    }
  }

  predicate CutBeforeOffer(ws: seq<Write>, k: nat) {
    k < |ws| && ws[k].Insert? && ws[k].item.PlanApproved?
  }

  /** Wherever a resume is cut, the invariant holds; and a plan is left active with no approval to give exactly when
      the cut falls between announcing it and offering it. */
  lemma CutAnywhere(m: PlanManifest, cap: int, s: Store, cmd: Command, k: nat)
    requires Sound(m) && Inv(m, s) && cmd.item in s.items
    requires k <= |WritesOf(m, cap, Replay(s.log), cmd)|
    ensures var ws := WritesOf(m, cap, Replay(s.log), cmd);
      var after := WrittenAll(s, ws[..k]);
      && Inv(m, after)
      && (NoneStranded(s) ==> (NoneStranded(after) <==> !CutBeforeOffer(ws, k)))
  {
    hide Replay, Inv, TurnWrites, NextPlans, TurnPlans, WellFormed, Cyclic, NoneStranded, Ready;
    var p := Replay(s.log);
    var turn := TurnWrites(m, cmd);
    var next := if Offers(m, cmd) then NextWrites(m, cap, TurnPlans(m, p, cmd)) else [];
    var ws := WritesOf(m, cap, p, cmd);
    assert ws == turn + next;
    NoOfferInTurn(m, cmd);
    if k < |turn| {
      assert ws[..k] == turn[..k] && ws[k] == turn[k] && !CutBeforeOffer(turn, k);
      TurnSafe(m, s, cmd, k);
    } else {
      ReplayTurn(m, s, cmd);
      TurnSafe(m, s, cmd, |turn|);
      assert turn[..|turn|] == turn;
      var mid := WrittenAll(s, turn);
      var j := k - |turn|;
      assert ws[..k] == turn + next[..j];
      WrittenJoin(s, turn, next[..j]);
      if next == [] {
        assert next[..j] == [];
        ThroughoutNone(m, mid);
      } else {
        NextWritesMeaning(m, cap, mid);
        if j == 0 {
          assert next[..j] == [];
          ThroughoutNone(m, mid);
        } else if j == 2 {
          assert next[..j] == next;
        }
      }
    }
  }

  lemma NoOfferInTurn(m: PlanManifest, cmd: Command)
    ensures forall k :: 0 <= k < |TurnWrites(m, cmd)| ==> !CutBeforeOffer(TurnWrites(m, cmd), k)
  {
    if Runs(m, cmd) {
      TurnWritesAreTurn(m, cmd);
    }
  }

  // ---- The loop itself ----

  datatype ResumeOutcome =
    | Paused(planId: int)
    | AllComplete
    | NoneReady
    | BadSource
    | UnknownPlan
    | PlannerFailed
    | PhasesFailed
    | Dirty
    | UnknownQuestion

  class PlanRunner {
    const m: PlanManifest
    const cap: int
    var log: seq<Event>
    var items: seq<Item>

    constructor (m: PlanManifest, cap: int)
      ensures this.m == m && this.cap == cap && Current() == Store([], [SpecApproved])
    {
      this.m, this.cap, log, items := m, cap, [], [SpecApproved];
    }

    function Current(): Store
      reads this
    {
      Store(log, items)
    }

    method Emit(e: Event)
      modifies this
      ensures Current() == WrittenAll(old(Current()), [Log(e)])
    {
      OneWrite(Current(), Log(e));
      log := log + [e];
    }

    method InsertCheckpoint(item: Item)
      modifies this
      ensures Current() == WrittenAll(old(Current()), [Insert(item)])
    {
      OneWrite(Current(), Insert(item));
      items := items + [item];
    }

    method AnnouncePhases(id: int, begun: nat)
      modifies this
      ensures Current() == WrittenAll(old(Current()), PhaseWrites(id, begun))
    {
      hide WrittenAll;
      ghost var before := Current();
      NoWrites(before);
      for k := 0 to begun
        invariant Current() == WrittenAll(before, PhaseWrites(id, k))
      {
        ghost var done := PhaseWrites(id, k);
        Emit(PhaseStarted(id));
        WrittenJoin(before, done, [Log(PhaseStarted(id))]);
        Emit(Other);
        WrittenJoin(before, done + [Log(PhaseStarted(id))], [Log(Other)]);
        assert done + [Log(PhaseStarted(id))] + [Log(Other)] == PhaseWrites(id, k + 1);
      }
    }

    /** Runs the phases and leaves in the store what they log on the way. */
    method RunPhases(plan: PlanEntry, turn: Turn) returns (run: P.PlanRun)
      requires P.RunsPhases(turn.agents, turn.cfg, |plan.phases|, turn.shipper, turn.run)
      modifies this
      ensures run == turn.run
      ensures Current() == WrittenAll(old(Current()), RunWrites(plan.id, run))
    {
      hide WrittenAll, PhaseWrites, P.RunsPhases;
      run := P.RunPhasesForPlan(turn.agents, turn.cfg, plan.phases, turn.shipper);
      P.RunIsDetermined(turn.agents, turn.cfg, |plan.phases|, turn.shipper, run, turn.run);
      ghost var before := Current();
      AnnouncePhases(plan.id, Begun(run));
      ghost var done := PhaseWrites(plan.id, Begun(run));
      assert done + [] == done;
      if run.ending.StoppedDirty? || run.ships > 0 {
        InsertCheckpoint(Unresumable);
        WrittenJoin(before, done, [Insert(Unresumable)]);
        done := done + [Insert(Unresumable)];
      }
      assert done + [] == done;
      if run.ending.AllClean? && run.ships > 0 {
        Emit(PlanShipped(plan.id));
        WrittenJoin(before, done, [Log(PlanShipped(plan.id))]);
      }
    }

    /** An approved plan's turn, up to and including its completion. */
    method TakeTurn(planId: int, turn: Turn) returns (finished: bool, failure: ResumeOutcome)
      requires Faithful(m, Command(PlanApproved(planId), turn))
      modifies this
      ensures Current() == WrittenAll(old(Current()), TurnWrites(m, Command(PlanApproved(planId), turn)))
      ensures finished <==> Finishes(m, Command(PlanApproved(planId), turn))
      ensures !finished ==> failure in {BadSource, UnknownPlan, PlannerFailed, PhasesFailed, Dirty}
      ensures !finished ==>
        (failure in {PhasesFailed, Dirty} <==> Runs(m, Command(PlanApproved(planId), turn)))
      ensures !finished && failure == Dirty ==> turn.run.ending.StoppedDirty?
      ensures finished <==>
        planId > 0 && planId in Ids(m.plans) && turn.planned && turn.run.ending.AllClean?
      ensures !finished ==>
        failure == if planId <= 0 then BadSource else if planId !in Ids(m.plans) then UnknownPlan
          else if !turn.planned then PlannerFailed else if turn.run.ending.StoppedDirty? then Dirty else PhasesFailed
    {
      hide WrittenAll, RunWrites, P.RunsPhases;
      ghost var before := Current();
      NoWrites(before);
      if planId <= 0 {
        return false, BadSource;
      }
      var plan := FindPlan(m.plans, planId);
      if plan.None? {
        return false, UnknownPlan;
      }
      if !turn.planned {
        return false, PlannerFailed;
      }
      Emit(PhaseStarted(planId));
      var run := RunPhases(plan.value, turn);
      ghost var ran := [Log(PhaseStarted(planId))] + RunWrites(planId, run);
      WrittenJoin(before, [Log(PhaseStarted(planId))], RunWrites(planId, run));
      assert ran + [] == ran;
      if run.ending.PhaseError? || run.ending.ShipError? {
        return false, PhasesFailed;
      }
      if run.ending.StoppedDirty? {
        return false, Dirty;
      }
      Emit(PlanShipped(planId));
      WrittenJoin(before, ran, [Log(PlanShipped(planId))]);
      return true, AllComplete;
    }

    method CreateNextCheckpoint(completed: set<int>, active0: set<int>)
      returns (outcome: ResumeOutcome, active: set<int>)
      modifies this
      ensures Current() == WrittenAll(old(Current()), NextWrites(m, cap, Plans(completed, active0)))
      ensures Plans(completed, active) == NextPlans(m, cap, Plans(completed, active0))
      ensures outcome.Paused? || outcome.AllComplete? || outcome.NoneReady?
      ensures outcome.Paused? ==> PlanApproved(outcome.planId) in items && outcome.planId in active
      ensures outcome.AllComplete? ==> Ids(m.plans) <= completed
      ensures outcome.NoneReady? ==> !(Ids(m.plans) <= completed) && Ready(m.plans, cap, completed, active0) == []
      ensures outcome.Paused? <==> exists n :: Foremost(m.plans, n, cap, completed, active0)
      ensures outcome.Paused? ==> exists n ::
        Foremost(m.plans, n, cap, completed, active - {outcome.planId}) && outcome == Paused(m.plans[n].id)
    {
      hide WrittenAll, Ready, Foremost;
      FirstIsForemost(m.plans, cap, completed, active0);
      active := active0;
      ghost var before := Current();
      var ready := ReadyPlans(m.plans, cap, completed, active);
      if |ready| > 0 {
        var plan := ready[0];
        active := active + {plan.id};
        Emit(PhaseStarted(plan.id));
        InsertCheckpoint(PlanApproved(plan.id));
        WrittenJoin(before, [Log(PhaseStarted(plan.id))], [Insert(PlanApproved(plan.id))]);
        assert [Log(PhaseStarted(plan.id))] + [Insert(PlanApproved(plan.id))]
            == [Log(PhaseStarted(plan.id)), Insert(PlanApproved(plan.id))];
        LastInserted(before, Log(PhaseStarted(plan.id)), PlanApproved(plan.id));
        ForemostIsNew(m.plans, cap, completed, active0);
        assert active - {plan.id} == active0;
        return Paused(plan.id), active;
      }
      NoWrites(before);
      var allDone := AllDone(m.plans, completed);
      return if allDone then AllComplete else NoneReady, active;
    }

    /** Resume from an approved item: rebuild the state, take the plan's turn, offer the next plan. */
    method Resume(item: Item, turn: Turn) returns (outcome: ResumeOutcome, completed: set<int>, active: set<int>)
      requires Faithful(m, Command(item, turn))
      modifies this
      ensures Current() ==
        WrittenAll(old(Current()), WritesOf(m, cap, Replay(old(log)), Command(item, turn)))
      ensures Plans(completed, active) == MemoryAfter(m, cap, Replay(old(log)), Command(item, turn))
      ensures outcome == UnknownQuestion <==> item == Unresumable
      ensures outcome == BadSource || outcome == UnknownPlan || outcome == PlannerFailed ==>
        !Runs(m, Command(item, turn))
      ensures outcome == PhasesFailed || outcome == Dirty ==>
        Runs(m, Command(item, turn)) && !Finishes(m, Command(item, turn))
      ensures outcome == Dirty ==> turn.run.ending.StoppedDirty?
      ensures outcome.Paused? || outcome.AllComplete? || outcome.NoneReady? <==> Offers(m, Command(item, turn))
      ensures outcome.Paused? ==> PlanApproved(outcome.planId) in items && outcome.planId in active
      ensures outcome.AllComplete? ==> Ids(m.plans) <= completed
      ensures outcome.NoneReady? ==> !(Ids(m.plans) <= completed)
      ensures outcome.Paused? ==> exists n ::
        Foremost(m.plans, n, cap, completed, active - {outcome.planId}) && outcome == Paused(m.plans[n].id)
      ensures outcome == BadSource <==> item.PlanApproved? && item.planId <= 0
      ensures outcome == UnknownPlan <==> item.PlanApproved? && item.planId > 0 && item.planId !in Ids(m.plans)
      ensures outcome == PlannerFailed <==>
        item.PlanApproved? && item.planId > 0 && item.planId in Ids(m.plans) && !turn.planned
      ensures outcome == Dirty <==> Runs(m, Command(item, turn)) && turn.run.ending.StoppedDirty?
      ensures outcome == PhasesFailed <==>
        Runs(m, Command(item, turn)) && (turn.run.ending.PhaseError? || turn.run.ending.ShipError?)
    {
      hide WrittenAll, Replay, Ready, TurnWrites, NextWrites, NextPlans, Faithful;
      completed, active := ReconstructPlanState(log);
      ghost var before := Current();
      ghost var cmd := Command(item, turn);
      match item {
        case SpecApproved =>
          NothingInTurn(m, cmd);
          assert [] + NextWrites(m, cap, Plans(completed, active)) == NextWrites(m, cap, Plans(completed, active));
          outcome, active := CreateNextCheckpoint(completed, active);
        case Unresumable =>
          NothingInTurn(m, cmd);
          NoWrites(before);
          assert WritesOf(m, cap, Plans(completed, active), cmd) == [];
          outcome := UnknownQuestion;
        case PlanApproved(planId) =>
          var finished;
          finished, outcome := TakeTurn(planId, turn);
          ghost var turned := TurnWrites(m, cmd);
          assert turned + [] == turned;
          if !finished {
            return;
          }
          completed := completed + {planId};
          active := active - {planId};
          ghost var mid := Plans(completed, active);
          outcome, active := CreateNextCheckpoint(completed, active);
          WrittenJoin(before, turned, NextWrites(m, cap, mid));
      }
    }
  }

  lemma NothingInTurn(m: PlanManifest, cmd: Command)
    requires !cmd.item.PlanApproved?
    ensures TurnWrites(m, cmd) == []
  {
  }

  lemma NoWrites(s: Store)
    ensures WrittenAll(s, []) == s
  {
  }

  lemma LastInserted(s: Store, w: Write, item: Item)
    ensures item in WrittenAll(s, [w, Insert(item)]).items
  {
    TwoWrites(s, w, Insert(item));
  }

  method AllDone(plans: seq<PlanEntry>, completed: set<int>) returns (all: bool)
    ensures all <==> Ids(plans) <= completed
  {
    for k := 0 to |plans|
      invariant forall j :: 0 <= j < k ==> plans[j].id in completed
    {
      if plans[k].id !in completed {
        assert plans[k].id in Ids(plans);
        return false;
      }
    }
    return true;
  }

  // ---- Whole histories of resumes ----

  /** A resume, cut after so many of its writes. */
  datatype Move = Move(cmd: Command, writes: nat)

  ghost predicate Moved(m: PlanManifest, cap: int, s: Store, move: Move, next: Store) {
    var ws := WritesOf(m, cap, Replay(s.log), move.cmd);
    && move.cmd.item in s.items && Faithful(m, move.cmd) && move.writes <= |ws|
    && next == WrittenAll(s, ws[..move.writes])
  }

  ghost predicate Trace(m: PlanManifest, cap: int, ss: seq<Store>, moves: seq<Move>) {
    && |ss| == |moves| + 1 && ss[0] == Store([], [SpecApproved])
    && forall k :: 0 <= k < |moves| ==> Moved(m, cap, ss[k], moves[k], ss[k + 1])
  }

  ghost predicate CutShort(m: PlanManifest, cap: int, s: Store, move: Move) {
    CutBeforeOffer(WritesOf(m, cap, Replay(s.log), move.cmd), move.writes)
  }

  lemma MoveKeeps(m: PlanManifest, cap: int, s: Store, move: Move, next: Store)
    requires Sound(m) && Inv(m, s) && Moved(m, cap, s, move, next)
    ensures Inv(m, next)
    ensures NoneStranded(s) ==> (NoneStranded(next) <==> !CutShort(m, cap, s, move))
  {
    hide Inv, NoneStranded, WritesOf, Sound;
    CutAnywhere(m, cap, s, move.cmd, move.writes);
  }

  lemma {:induction false} AlwaysInv(m: PlanManifest, cap: int, ss: seq<Store>, moves: seq<Move>, k: nat)
    requires Sound(m) && Trace(m, cap, ss, moves) && k < |ss|
    ensures Inv(m, ss[k])
  {
    hide Moved, Sound;
    if k > 0 {
      AlwaysInv(m, cap, ss, moves, k - 1);
      assert Moved(m, cap, ss[k - 1], moves[k - 1], ss[k - 1 + 1]);
      MoveKeeps(m, cap, ss[k - 1], moves[k - 1], ss[k]);
    }
  }

  /** A resume that ran to its end left the next one exactly the sets it had in memory: stopping in between changes
      nothing. */
  lemma ResumeContinues(m: PlanManifest, cap: int, ss: seq<Store>, moves: seq<Move>, k: nat)
    requires Sound(m) && Trace(m, cap, ss, moves) && k < |moves|
    requires moves[k].writes == |WritesOf(m, cap, Replay(ss[k].log), moves[k].cmd)|
    ensures Replay(ss[k + 1].log) == MemoryAfter(m, cap, Replay(ss[k].log), moves[k].cmd)
  {
    hide Sound, Replay, WritesOf, WrittenAll, MemoryAfter, Inv;
    AlwaysInv(m, cap, ss, moves, k);
    assert Moved(m, cap, ss[k], moves[k], ss[k + 1]);
    var ws := WritesOf(m, cap, Replay(ss[k].log), moves[k].cmd);
    assert ws[..|ws|] == ws;
    MemoryIsReplay(m, cap, ss[k], moves[k].cmd);
  }

  /** Whenever no plan is ready although some are unfinished, an unfinished plan is active. */
  lemma WaitingMeansActive(m: PlanManifest, cap: int, ss: seq<Store>, moves: seq<Move>, k: nat) returns (id: int)
    requires Sound(m) && Trace(m, cap, ss, moves) && k < |ss|
    requires !(Ids(m.plans) <= Replay(ss[k].log).completed)
    requires Ready(m.plans, cap, Replay(ss[k].log).completed, Replay(ss[k].log).active) == []
    ensures id in Replay(ss[k].log).active && id in Ids(m.plans) && id !in Replay(ss[k].log).completed
  {
    hide WellFormed, Cyclic, Replay, Ready, BlocksOn, Trace;
    AlwaysInv(m, cap, ss, moves, k);
    var p := Replay(ss[k].log);
    if |p.active| < MaxParallelPlans(cap) {
      Progress(m, cap, p.completed, p.active);
      var plan :| plan in m.plans && plan.id in p.active && plan.id !in p.completed;
      id := plan.id;
    } else {
      assert p.active != {};
      id :| id in p.active;
    }
  }

  /** Whatever stops and resumes went before, a plan's turn finds all its dependencies completed. */
  lemma DependenciesFirst(m: PlanManifest, cap: int, ss: seq<Store>, moves: seq<Move>, k: nat)
    requires Sound(m) && Trace(m, cap, ss, moves) && k < |moves| && Runs(m, moves[k].cmd)
    ensures forall d :: d in BlocksOn(m.plans, moves[k].cmd.item.planId) ==> d in Replay(ss[k].log).completed
  {
    hide Sound, Replay, BlocksOn, WritesOf;
    AlwaysInv(m, cap, ss, moves, k);
    assert Moved(m, cap, ss[k], moves[k], ss[k + 1]);
    assert Offerable(m, Replay(ss[k].log), moves[k].cmd.item.planId);
  }

  /** Only a turn of the plan itself, with every phase clean, completes it. */
  lemma {:induction false} ShippedBy(m: PlanManifest, s: Store, ws: seq<Write>, id: int)
    requires id in Replay(WrittenAll(s, ws).log).completed && id !in Replay(s.log).completed
    ensures Log(PlanShipped(id)) in ws
  {
    hide Replay;
    if ws != [] {
      var front := ws[..|ws| - 1];
      WrittenMeaning(WrittenAll(s, front), ws[|ws| - 1]);
      if id !in Replay(WrittenAll(s, front).log).completed {
        assert ws[|ws| - 1] == Log(PlanShipped(id));
      } else {
        ShippedBy(m, s, front, id);
      }
    }
  }

  lemma {:induction false} PhaseWritesShipNothing(id: int, begun: nat, other: int)
    ensures Log(PlanShipped(other)) !in PhaseWrites(id, begun)
  {
    if begun > 0 {
      PhaseWritesShipNothing(id, begun - 1, other);
    }
  }

  lemma OnlyCleanShips(m: PlanManifest, cap: int, p: Plans, cmd: Command, id: int)
    requires Log(PlanShipped(id)) in WritesOf(m, cap, p, cmd)
    ensures Finishes(m, cmd) && cmd.item.planId == id
  {
    hide Ready;
    if Runs(m, cmd) {
      PhaseWritesShipNothing(cmd.item.planId, Begun(cmd.turn.run), id);
    }
  }

  /** A plan is completed only by a turn in which every one of its phases converged. */
  lemma {:induction false} CompletedConverged(m: PlanManifest, cap: int, ss: seq<Store>, moves: seq<Move>, k: nat,
                                              id: int)
    returns (at: nat)
    requires Trace(m, cap, ss, moves) && k < |ss| && id in Replay(ss[k].log).completed
    ensures at < k && Finishes(m, moves[at].cmd) && moves[at].cmd.item.planId == id
    ensures var plan := FindPlan(m.plans, id);
      plan.Some? && P.AllPhasesClean(moves[at].cmd.turn.run, |plan.value.phases|)
  {
    hide Replay, WritesOf, WrittenAll;
    assert Replay([]) == Plans({}, {}) by { EmptyReplay(); }
    at := k - 1;
    assert Moved(m, cap, ss[at], moves[at], ss[at + 1]);
    if id in Replay(ss[at].log).completed {
      at := CompletedConverged(m, cap, ss, moves, at, id);
    } else {
      var ws := WritesOf(m, cap, Replay(ss[at].log), moves[at].cmd);
      ShippedBy(m, ss[at], ws[..moves[at].writes], id);
      OnlyCleanShips(m, cap, Replay(ss[at].log), moves[at].cmd, id);
    }
  }

  lemma EmptyReplay()
    ensures Replay([]) == Plans({}, {})
  {
  }

  // ---- Progress ----

  /** A resume that chooses the next plan leaves nothing to do, or an unfinished plan waiting for an approval that can
      be given. */
  lemma NeverStuck(m: PlanManifest, cap: int, s: Store, cmd: Command) returns (id: int)
    requires Sound(m) && Inv(m, s) && NoneStranded(s) && cmd.item in s.items && Offers(m, cmd)
    requires !(Ids(m.plans) <= MemoryAfter(m, cap, Replay(s.log), cmd).completed)
    ensures var after := WrittenAll(s, WritesOf(m, cap, Replay(s.log), cmd));
      && id in Replay(after.log).active && id in Ids(m.plans) && id !in Replay(after.log).completed
      && PlanApproved(id) in after.items
  {
    hide Replay, WellFormed, Cyclic, WritesOf, WrittenAll, BlocksOn, Ready;
    var p := Replay(s.log);
    var ws := WritesOf(m, cap, p, cmd);
    MemoryIsReplay(m, cap, s, cmd);
    CutAnywhere(m, cap, s, cmd, |ws|);
    assert ws[..|ws|] == ws;
    var after := MemoryAfter(m, cap, p, cmd);
    var mid := TurnPlans(m, p, cmd);
    var ready := Ready(m.plans, cap, mid.completed, mid.active);
    if ready != [] {
      id := ready[0].id;
    } else if |mid.active| < MaxParallelPlans(cap) {
      Progress(m, cap, mid.completed, mid.active);
      var plan :| plan in m.plans && plan.id in mid.active && plan.id !in mid.completed;
      id := plan.id;
    } else {
      assert mid.active != {};
      id :| id in mid.active;
    }
  }

  /** The number of unfinished plans falls by one on a plan's first success and never changes otherwise. */
  lemma UnfinishedFalls(m: PlanManifest, cap: int, s: Store, cmd: Command)
    requires Sound(m) && Inv(m, s) && cmd.item in s.items
    ensures var p := Replay(s.log);
      var after := Replay(WrittenAll(s, WritesOf(m, cap, p, cmd)).log);
      |Ids(m.plans) - after.completed| ==
        |Ids(m.plans) - p.completed| - if Finishes(m, cmd) && cmd.item.planId !in p.completed then 1 else 0
  {
    hide Replay, WellFormed, Cyclic, WritesOf, WrittenAll, BlocksOn, Ready, Inv;
    var p := Replay(s.log);
    MemoryIsReplay(m, cap, s, cmd);
    if Finishes(m, cmd) {
      var id := cmd.item.planId;
      assert Ids(m.plans) - (p.completed + {id}) == (Ids(m.plans) - p.completed) - {id};
    }
  }

  /** What a move really writes. */
  ghost function Performed(m: PlanManifest, cap: int, s: Store, move: Move): seq<Write>
    requires move.writes <= |WritesOf(m, cap, Replay(s.log), move.cmd)|
  {
    WritesOf(m, cap, Replay(s.log), move.cmd)[..move.writes]
  }

  ghost predicate Ships(m: PlanManifest, cap: int, s: Store, move: Move, id: int) {
    && move.writes <= |WritesOf(m, cap, Replay(s.log), move.cmd)|
    && Log(PlanShipped(id)) in Performed(m, cap, s, move)
  }

  ghost predicate ShippedBefore(m: PlanManifest, cap: int, ss: seq<Store>, moves: seq<Move>, k: int, id: int)
    requires k <= |moves| && |ss| == |moves| + 1
  {
    exists j :: 0 <= j < k && Ships(m, cap, ss[j], moves[j], id)
  }

  lemma {:induction false} ShippingCompletes(s: Store, ws: seq<Write>, id: int)
    requires id > 0
    ensures id in Replay(s.log).completed ==> id in Replay(WrittenAll(s, ws).log).completed
    ensures Log(PlanShipped(id)) in ws ==> id in Replay(WrittenAll(s, ws).log).completed
  {
    hide Replay;
    if ws != [] {
      var front := ws[..|ws| - 1];
      ShippingCompletes(s, front, id);
      WrittenMeaning(WrittenAll(s, front), ws[|ws| - 1]);
    }
  }

  /** One move: completed afterwards exactly when completed before or shipped by it. */
  lemma MoveCompletes(m: PlanManifest, cap: int, s: Store, move: Move, next: Store, id: int)
    requires Moved(m, cap, s, move, next)
    ensures id in Replay(next.log).completed <==> id in Replay(s.log).completed || Ships(m, cap, s, move, id)
    ensures Ships(m, cap, s, move, id) ==> Finishes(m, move.cmd) && move.cmd.item.planId == id
  {
    hide Replay, WritesOf, WrittenAll, Faithful;
    var ws := Performed(m, cap, s, move);
    if Log(PlanShipped(id)) in ws {
      OnlyCleanShips(m, cap, Replay(s.log), move.cmd, id);
    }
    if id > 0 {
      ShippingCompletes(s, ws, id);
    } else {
      CompletedPositive(s.log, id);
      CompletedPositive(next.log, id);
    }
    if id in Replay(next.log).completed && id !in Replay(s.log).completed {
      ShippedBy(m, s, ws, id);
    }
  }

  lemma {:induction false} CompletedPositive(log: seq<Event>, id: int)
    ensures id in Replay(log).completed ==> id > 0
  {
    if log != [] {
      CompletedPositive(log[..|log| - 1], id);
    }
  }

  /** Over any history a plan is completed exactly when some move shipped it; so a shipping repeats an earlier one
      exactly when the plan was completed already, and nothing in the loop asks. */
  lemma {:induction false} CompletedIffShipped(m: PlanManifest, cap: int, ss: seq<Store>, moves: seq<Move>, k: nat,
                                               id: int)
    requires Trace(m, cap, ss, moves) && k < |ss|
    ensures id in Replay(ss[k].log).completed <==> ShippedBefore(m, cap, ss, moves, k, id)
  {
    hide Moved, Replay, Ships;
    if k == 0 {
      EmptyReplay();
    } else {
      CompletedIffShipped(m, cap, ss, moves, k - 1, id);
      assert Moved(m, cap, ss[k - 1], moves[k - 1], ss[k - 1 + 1]);
      MoveCompletes(m, cap, ss[k - 1], moves[k - 1], ss[k], id);
      if ShippedBefore(m, cap, ss, moves, k - 1, id) {
        var j :| 0 <= j < k - 1 && Ships(m, cap, ss[j], moves[j], id);
        assert Ships(m, cap, ss[j], moves[j], id) && 0 <= j < k;
      }
    }
  }

  /** A resume that finishes a plan with a working shipper ships it, whether or not it was shipped before: it repeats
      an earlier shipping exactly when the plan was completed, and then the completed set stays as it was. */
  lemma ReapprovalRunsAgain(m: PlanManifest, cap: int, ss: seq<Store>, moves: seq<Move>, k: nat)
    requires Trace(m, cap, ss, moves) && k < |moves|
    requires Finishes(m, moves[k].cmd) && moves[k].cmd.turn.shipper == P.ShipWorks
    requires moves[k].writes == |WritesOf(m, cap, Replay(ss[k].log), moves[k].cmd)|
    ensures moves[k].cmd.turn.run.ships == 1 && Ships(m, cap, ss[k], moves[k], moves[k].cmd.item.planId)
    ensures var id := moves[k].cmd.item.planId;
      && (ShippedBefore(m, cap, ss, moves, k, id) <==> id in Replay(ss[k].log).completed)
      && Replay(ss[k + 1].log).completed == Replay(ss[k].log).completed + {id}
  {
    hide Replay, NextWrites, RunWrites, WrittenAll, BlocksOn, Ready, WritesOf;
    var cmd := moves[k].cmd;
    assert Moved(m, cap, ss[k], moves[k], ss[k + 1]);
    CompletedIffShipped(m, cap, ss, moves, k, cmd.item.planId);
    TurnShips(m, cap, Replay(ss[k].log), cmd);
    var ws := WritesOf(m, cap, Replay(ss[k].log), cmd);
    assert ws[..|ws|] == ws;
    forall id
      ensures id in Replay(ss[k + 1].log).completed <==> id in Replay(ss[k].log).completed || id == cmd.item.planId
    {
      MoveCompletes(m, cap, ss[k], moves[k], ss[k + 1], id);
    }
  }

  lemma TurnShips(m: PlanManifest, cap: int, p: Plans, cmd: Command)
    requires Finishes(m, cmd)
    ensures Log(PlanShipped(cmd.item.planId)) in WritesOf(m, cap, p, cmd)
  {
    hide NextWrites, RunWrites;
    var turn := TurnWrites(m, cmd);
    assert turn[|turn| - 1] == Log(PlanShipped(cmd.item.planId));
    assert WritesOf(m, cap, p, cmd)[|turn| - 1] == Log(PlanShipped(cmd.item.planId));
  }

  lemma Advance(m: PlanManifest, cap: int, ss: seq<Store>, moves: seq<Move>, cmd: Command)
    returns (more: seq<Store>, longer: seq<Move>, last: Store)
    requires Trace(m, cap, ss, moves) && cmd.item in ss[|ss| - 1].items && Faithful(m, cmd)
    ensures Trace(m, cap, more, longer) && more == ss + [last]
    ensures var ws := WritesOf(m, cap, Replay(ss[|ss| - 1].log), cmd);
      longer == moves + [Move(cmd, |ws|)] && last == WrittenAll(ss[|ss| - 1], ws)
  {
    hide WritesOf, WrittenAll, Replay, Faithful;
    var ws := WritesOf(m, cap, Replay(ss[|ss| - 1].log), cmd);
    assert ws[..|ws|] == ws;
    last := WrittenAll(ss[|ss| - 1], ws);
    more, longer := ss + [last], moves + [Move(cmd, |ws|)];
    forall k | 0 <= k < |longer|
      ensures Moved(m, cap, more[k], longer[k], more[k + 1])
    {
      if k < |moves| {
        assert Moved(m, cap, ss[k], moves[k], ss[k + 1]);
      }
    }
  }

  /** It can happen to every manifest: approve the spec, approve the first plan, and approve it again. */
  lemma SecondApprovalShipsAgain(m: PlanManifest, cap: int, cfg: P.Config)
    returns (ss: seq<Store>, moves: seq<Move>, id: int)
    requires Sound(m)
    ensures Trace(m, cap, ss, moves) && |moves| == 3
    ensures Ships(m, cap, ss[1], moves[1], id) && moves[1].cmd.turn.run.ships == 1
    ensures Ships(m, cap, ss[2], moves[2], id) && moves[2].cmd.turn.run.ships == 1
  {
    hide WellFormed, Cyclic, Ready, WrittenAll, WritesOf, Faithful, P.RunsPhases, Moved;
    var s := Store([], [SpecApproved]);
    ss, moves := [s], [];
    EmptyReplay();
    SomethingLeft(m);
    Progress(m, cap, {}, {});
    var plan := Ready(m.plans, cap, {}, {})[0];
    id := plan.id;
    OfferIsSound(m, cap, Plans({}, {}));
    var turn := CleanTurn(m, id, cfg);
    var spec, approve := Command(SpecApproved, turn), Command(PlanApproved(id), turn);
    var last;
    ss, moves, last := Advance(m, cap, ss, moves, spec) by { SpecFaithful(m, turn); }
    FirstOffer(m, cap, s, spec, id);
    ss, moves, last := Advance(m, cap, ss, moves, approve);
    ItemsStay(ss[1], WritesOf(m, cap, Replay(ss[1].log), approve), PlanApproved(id));
    ss, moves, last := Advance(m, cap, ss, moves, approve);
    assert ss[1] == ss[..2][1];
    ReapprovalRunsAgain(m, cap, ss, moves, 1);
    ReapprovalRunsAgain(m, cap, ss, moves, 2);
  }

  lemma SpecFaithful(m: PlanManifest, turn: Turn)
    ensures Faithful(m, Command(SpecApproved, turn))
  {
  }

  lemma CleanTurn(m: PlanManifest, id: int, cfg: P.Config) returns (turn: Turn)
    requires id in Ids(m.plans) && id > 0
    ensures Faithful(m, Command(PlanApproved(id), turn)) && Finishes(m, Command(PlanApproved(id), turn))
    ensures turn.shipper == P.ShipWorks
  {
    hide P.RunsPhases;
    var plan := FindPlan(m.plans, id).value;
    var run := P.SomeCleanRun(cfg, |plan.phases|);
    turn := Turn(true, P.QuietAgents(), cfg, P.ShipWorks, run);
  }

  lemma FirstOffer(m: PlanManifest, cap: int, s: Store, cmd: Command, id: int)
    requires s == Store([], [SpecApproved]) && cmd.item == SpecApproved
    requires Ready(m.plans, cap, {}, {}) != [] && Ready(m.plans, cap, {}, {})[0].id == id
    ensures PlanApproved(id) in WrittenAll(s, WritesOf(m, cap, Replay(s.log), cmd)).items
  {
    hide Ready;
    EmptyReplay();
    assert WritesOf(m, cap, Replay(s.log), cmd) == [Log(PhaseStarted(id)), Insert(PlanApproved(id))];
    LastInserted(s, Log(PhaseStarted(id)), PlanApproved(id));
  }

  lemma {:induction false} ItemsStay(s: Store, ws: seq<Write>, item: Item)
    requires item in s.items
    ensures item in WrittenAll(s, ws).items
  {
    if ws != [] {
      ItemsStay(s, ws[..|ws| - 1], item);
    }
  }

  // ---- What a badly timed crash costs ----

  ghost predicate Stranded(s: Store, id: int) {
    id in Replay(s.log).active && PlanApproved(id) !in s.items
  }

  predicate Harmless(w: Write, id: int) {
    w != Log(PlanShipped(id)) && w != Insert(PlanApproved(id))
  }

  lemma {:induction false} HarmlessKeeps(s: Store, ws: seq<Write>, id: int)
    requires Stranded(s, id) && forall k :: 0 <= k < |ws| ==> Harmless(ws[k], id)
    ensures Stranded(WrittenAll(s, ws), id)
  {
    hide Replay;
    if ws != [] {
      HarmlessKeeps(s, ws[..|ws| - 1], id);
      WrittenMeaning(WrittenAll(s, ws[..|ws| - 1]), ws[|ws| - 1]);
    }
  }

  lemma OfferedIsReady(m: PlanManifest, cap: int, p: Plans, cmd: Command, k: nat, id: int)
    requires k < |WritesOf(m, cap, p, cmd)| && WritesOf(m, cap, p, cmd)[k] == Insert(PlanApproved(id))
    ensures Offers(m, cmd)
    ensures var mid := TurnPlans(m, p, cmd);
      var ready := Ready(m.plans, cap, mid.completed, mid.active);
      ready != [] && ready[0].id == id
  {
    hide Ready, TurnWrites, TurnPlans;
    var turn := TurnWrites(m, cmd);
    NoOfferInTurn(m, cmd);
    forall j | 0 <= j < |turn|
      ensures turn[j] != Insert(PlanApproved(id))
    {
      assert !CutBeforeOffer(turn, j);
    }
  }

  lemma StrandedStays(m: PlanManifest, cap: int, s: Store, move: Move, next: Store, id: int)
    requires Sound(m) && Inv(m, s) && Moved(m, cap, s, move, next) && Stranded(s, id)
    ensures Stranded(next, id)
  {
    hide Replay, Inv, WrittenAll, Ready, Faithful, WellFormed, Cyclic;
    var p := Replay(s.log);
    var ws := WritesOf(m, cap, p, move.cmd);
    forall k | 0 <= k < |ws|
      ensures Harmless(ws[k], id)
    {
      if ws[k] == Log(PlanShipped(id)) {
        assert Log(PlanShipped(id)) in ws;
        OnlyCleanShips(m, cap, p, move.cmd, id);
      }
      if ws[k] == Insert(PlanApproved(id)) {
        OfferedIsReady(m, cap, p, move.cmd, k, id);
        OfferIsSound(m, cap, TurnPlans(m, p, move.cmd));
      }
    }
    HarmlessKeeps(s, ws[..move.writes], id);
  }

  /** A stranded plan is never run, never offered again and never completed, whatever is resumed afterwards. */
  lemma {:induction false} StrandedForever(m: PlanManifest, cap: int, ss: seq<Store>, moves: seq<Move>, i: nat, j: nat,
                                           id: int)
    requires Sound(m) && Trace(m, cap, ss, moves) && i <= j < |ss| && Stranded(ss[i], id)
    ensures Stranded(ss[j], id) && id !in Replay(ss[j].log).completed
    decreases j - i
  {
    hide Moved, Sound, Replay;
    AlwaysInv(m, cap, ss, moves, j);
    if i < j {
      StrandedForever(m, cap, ss, moves, i, j - 1, id);
      AlwaysInv(m, cap, ss, moves, j - 1);
      assert Moved(m, cap, ss[j - 1], moves[j - 1], ss[j - 1 + 1]);
      StrandedStays(m, cap, ss[j - 1], moves[j - 1], ss[j], id);
    }
  }

  ghost predicate NoBadCut(m: PlanManifest, cap: int, ss: seq<Store>, moves: seq<Move>, k: int)
    requires |ss| == |moves| + 1
  {
    forall i :: 0 <= i < k && i < |moves| ==> !CutShort(m, cap, ss[i], moves[i])
  }

  /** At any time every active plan can still be approved exactly when no resume so far was cut between announcing a
      plan and offering it. */
  lemma {:induction false} StrandedIffCut(m: PlanManifest, cap: int, ss: seq<Store>, moves: seq<Move>, k: nat)
    requires Sound(m) && Trace(m, cap, ss, moves) && k < |ss|
    ensures NoneStranded(ss[k]) <==> NoBadCut(m, cap, ss, moves, k)
  {
    hide Moved, Sound, Replay, CutShort;
    assert Replay([]) == Plans({}, {}) by { EmptyReplay(); }
    if k > 0 {
      var s, next := ss[k - 1], ss[k];
      StrandedIffCut(m, cap, ss, moves, k - 1);
      AlwaysInv(m, cap, ss, moves, k - 1);
      assert Moved(m, cap, s, moves[k - 1], ss[k - 1 + 1]);
      MoveKeeps(m, cap, s, moves[k - 1], next);
      if !NoneStranded(s) {
        var id :| id in Replay(s.log).active && PlanApproved(id) !in s.items;
        StrandedStays(m, cap, s, moves[k - 1], next, id);
      }
    }
  }

  /** It can happen to every manifest: cut the very first resume between its two writes. */
  lemma FirstResumeCanStrand(m: PlanManifest, cap: int, turn: Turn) returns (ss: seq<Store>, moves: seq<Move>, id: int)
    requires Sound(m)
    ensures Trace(m, cap, ss, moves) && |moves| == 1 && CutShort(m, cap, ss[0], moves[0])
    ensures Stranded(ss[1], id)
  {
    hide WellFormed, Cyclic, Ready, WrittenAll;
    var s := Store([], [SpecApproved]);
    var cmd := Command(SpecApproved, turn);
    EmptyReplay();
    SomethingLeft(m);
    Progress(m, cap, {}, {});
    id := Ready(m.plans, cap, {}, {})[0].id;
    OfferIsSound(m, cap, Plans({}, {}));
    var ws := WritesOf(m, cap, Replay(s.log), cmd);
    assert ws == [Log(PhaseStarted(id)), Insert(PlanApproved(id))];
    assert ws[..1] == [Log(PhaseStarted(id))];
    OneWrite(s, Log(PhaseStarted(id)));
    WrittenMeaning(s, Log(PhaseStarted(id)));
    ss, moves := [s, WrittenAll(s, ws[..1])], [Move(cmd, 1)];
  }

  lemma SomethingLeft(m: PlanManifest)
    requires WellFormed(m)
    ensures !(Ids(m.plans) <= {})
  {
    assert m.plans[0].id in Ids(m.plans);
  }
}
