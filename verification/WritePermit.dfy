/**
 * Who is granted the write, and why every delivery can leave: the earliest active delivery is always
 * granted, whatever the gate does, so the deliveries can write and complete one after the other, and
 * a drain always comes to an end.
 */
module WritePermit {
  import opened Contract
  import opened CoordinatorModel
  import opened CoordinatorInvariants
  import opened CoordinatorRuns
  import opened CoordinatorSafety
  import opened SnapshotRounds
  import DayGraph

  // ---- one answer ----

  function Ask(c: State, id: string): Call
    requires id in c.active
  {
    OnDelivery(CallAcquireWrite(id, c.active[id].payload))
  }

  /** No active delivery has a smaller sequence. */
  predicate Earliest(c: State, id: string)
    requires id in c.active
  {
    !exists other :: other in c.active && c.active[other].sequence < c.active[id].sequence
  }

  /** A delivery that is not over is granted the write exactly if no active delivery is earlier. */
  lemma GrantedIffEarliest(c: State, id: string, clock: Clock)
    requires id in c.active && clock.now < c.active[id].expiresAt
    ensures Step(c, Ask(c, id), clock) == Outcome(c, Permit(Earliest(c, id)))
  {}

  /** Nobody else is granted: not an unknown delivery, not another payload, not one that is over. */
  lemma OthersAreRefused(c: State, id: string, payload: string, clock: Clock)
    requires id in c.active ==> payload != c.active[id].payload || clock.now >= c.active[id].expiresAt
    ensures
      var out := Step(c, OnDelivery(CallAcquireWrite(id, payload)), clock);
      out.reply.Refused? && out.state == c
  {}

  lemma SomeOther(ids: set<string>, some: string)
    requires some in ids && ids != {some}
    ensures ids - {some} != {}
  {
    var other :| other in ids && other != some;
    assert other in ids - {some};
  }

  lemma {:induction false} EarliestIn(c: State, ids: set<string>) returns (id: string)
    requires ids != {} && ids <= c.active.Keys
    ensures id in ids && forall other :: other in ids ==> c.active[id].sequence <= c.active[other].sequence
    decreases |ids|
  {
    var some :| some in ids;
    if ids == {some} {
      id := some;
    } else {
      SomeOther(ids, some);
      var best := EarliestIn(c, ids - {some});
      id := if c.active[some].sequence < c.active[best].sequence then some else best;
    }
  }

  /** While deliveries are active, there is always one that may write. */
  lemma SomeoneIsEarliest(c: State) returns (id: string)
    requires c.active != map[]
    ensures id in c.active && Earliest(c, id) && HoldsPermit(c, id)
  {
    assert c.active.Keys != {};
    id := EarliestIn(c, c.active.Keys);
  }

  // ---- everyone leaves ----

  /** A delivery that is over is expired. */
  ghost predicate ExpireTurn(c: State, e: Event) {
    && e.call.OnDelivery? && e.call.delivery.CallExpire? && Step(c, e.call, e.clock).reply.Left?
  }

  /** A delivery asks for the write, is granted it, plans its days and completes with them. */
  ghost predicate WriteTurn(c: State, ask: Event, plan: Event, finish: Event) {
    && ask.call.OnDelivery? && ask.call.delivery.CallAcquireWrite? && plan.call.OnDelivery? && plan.call.delivery.CallPlanWrite?
    && finish.call.OnDelivery? && finish.call.delivery.CallFinishDelivery? && finish.call.delivery.hasReservation
    && ask.call.delivery.id == plan.call.delivery.id == finish.call.delivery.id
    && Step(c, ask.call, ask.clock) == Outcome(c, Permit(true))
    && var planned := Step(c, plan.call, plan.clock);
       && planned.reply == DaysPlanned(finish.call.delivery.planned)
       && Step(planned.state, finish.call, finish.clock).reply.Left?
  }

  ghost function AfterTurn(c: State, plan: Event, finish: Event): State {
    Step(Step(c, plan.call, plan.clock).state, finish.call, finish.clock).state
  }

  /** Deliveries leave one after the other, each by expiring or by writing, and nothing else happens. */
  ghost predicate Turns(c: State, run: seq<Event>, c1: State)
    decreases |run|
  {
    if run == [] then c1 == c
    else
      || (ExpireTurn(c, run[0]) && Turns(Step(c, run[0].call, run[0].clock).state, run[1..], c1))
      || (|run| >= 3 && WriteTurn(c, run[0], run[1], run[2]) && Turns(AfterTurn(c, run[1], run[2]), run[3..], c1))
  }

  function RetainedDays(days: set<Day>, clock: Clock): set<Day> {
    set d | d in days && clock.Retains(d)
  }

  /** Each of these days once, in some order. */
  lemma {:induction false} ListOf(days: set<Day>) returns (list: seq<Day>)
    ensures DaySetOf(list) == days && |list| == |days|
    decreases |days|
  {
    if days == {} {
      list := [];
    } else {
      DayGraph.NonEmpty(days);
      var d :| d in days;
      var rest := ListOf(days - {d});
      list := rest + [d];
      assert DaySetOf(list) == DaySetOf(rest) + {d};
    }
  }

  function Planned(c: State, id: string, days: set<Day>): State
    requires id in c.active
  {
    c.(active := c.active[id := c.active[id].(days := days)])
  }

  /** Planning fewer days never goes over the limit. */
  lemma FewerDaysPending(c: State, id: string, days: set<Day>)
    requires id in c.active && days <= c.active[id].days
    ensures |PendingDays(Planned(c, id, days))| <= |PendingDays(c)|
  {
    var c1 := Planned(c, id, days);
    forall d | d in PendingDays(c1) ensures d in PendingDays(c) {
      if d !in c.dirty {
        var other :| other in c1.active && d in c1.active[other].days;
        assert d in c.active[other].days;
      }
    }
    DayGraph.SubsetCardinality(PendingDays(c1), PendingDays(c));
  }

  lemma OwnDaysArePending(c: State, id: string)
    requires id in c.active
    ensures c.active[id].days <= PendingDays(c)
  {
    forall d | d in c.active[id].days ensures d in PendingDays(c) {}
  }

  /** The earliest delivery may plan any retained days of its reservation. */
  lemma PlansFewerDays(c: State, id: string, list: seq<Day>, clock: Clock)
    requires Inv(c) && id in c.active && HoldsPermit(c, id) && clock.now < c.active[id].expiresAt
    requires |list| == |DaySetOf(list)| && DaySetOf(list) <= RetainedDays(c.active[id].days, clock)
    ensures Step(c, OnDelivery(CallPlanWrite(id, c.active[id].payload, list, [])), clock) ==
      Outcome(Planned(c, id, DaySetOf(list)), DaysPlanned(DaySetOf(list)))
  {
    OwnDaysArePending(c, id);
    DayGraph.SubsetCardinality(DaySetOf(list), PendingDays(c));
    FewerDaysPending(c, id, DaySetOf(list));
  }

  /** The earliest delivery can take its turn, and is gone after it. */
  lemma TakesTurn(c: State, id: string, clock: Clock) returns (ask: Event, plan: Event, finish: Event)
    requires Inv(c) && id in c.active && Earliest(c, id) && HoldsPermit(c, id) && clock.now < c.active[id].expiresAt
    ensures WriteTurn(c, ask, plan, finish) && ask.clock == plan.clock == finish.clock == clock
    ensures AfterTurn(c, plan, finish).active == c.active - {id}
  {
    var list := ListOf(RetainedDays(c.active[id].days, clock));
    var payload := c.active[id].payload;
    ask := Event(Ask(c, id), clock);
    plan := Event(OnDelivery(CallPlanWrite(id, payload, list, [])), clock);
    finish := Event(OnDelivery(CallFinishDelivery(id, payload, true, DaySetOf(list))), clock);
    GrantedIffEarliest(c, id, clock);
    PlansFewerDays(c, id, list, clock);
    CompletesPlanned(c, id, DaySetOf(list), clock);
  }

  lemma CompletesPlanned(c: State, id: string, days: set<Day>, clock: Clock)
    requires id in c.active
    ensures
      var out := Step(Planned(c, id, days), OnDelivery(CallFinishDelivery(id, c.active[id].payload, true, days)), clock);
      out.reply.Left? && out.state.active == c.active - {id}
  {
    assert Planned(c, id, days).active - {id} == c.active - {id};
  }

  lemma IsExpired(c: State, id: string, clock: Clock)
    requires id in c.active && clock.now >= c.active[id].expiresAt
    ensures
      var out := Step(c, OnDelivery(CallExpire(id, c.active[id].payload)), clock);
      out.reply.Left? && out.state.active == c.active - {id}
  {}

  /** The next delivery leaves: over ones expire, others write in their turn. */
  lemma NextLeaves(c: State, clock: Clock) returns (turn: seq<Event>, next: State)
    requires ReachableState(c) && c.active != map[]
    ensures ReachableState(next) && |next.active| < |c.active| && (forall e :: e in turn ==> e.clock == clock)
    ensures forall rest, c1 :: Turns(next, rest, c1) ==> Turns(c, turn + rest, c1)
  {
    ReachableStateInv(c);
    var id := SomeoneIsEarliest(c);
    assert |c.active - {id}| < |c.active| by {
      assert (c.active - {id}).Keys < c.active.Keys;
      DayGraph.CardinalityDrops((c.active - {id}).Keys, c.active.Keys);
    }
    if clock.now >= c.active[id].expiresAt {
      var e := Event(OnDelivery(CallExpire(id, c.active[id].payload)), clock);
      IsExpired(c, id, clock);
      ReachableStateStep(c, e.call, clock);
      turn, next := [e], Step(c, e.call, clock).state;
      forall rest, c1 | Turns(next, rest, c1) ensures Turns(c, turn + rest, c1) {
        assert (turn + rest)[1..] == rest;
      }
    } else {
      var ask, plan, finish := TakesTurn(c, id, clock);
      ReachableStateStep(c, plan.call, clock);
      ReachableStateStep(Step(c, plan.call, clock).state, finish.call, clock);
      turn, next := [ask, plan, finish], AfterTurn(c, plan, finish);
      forall rest, c1 | Turns(next, rest, c1) ensures Turns(c, turn + rest, c1) {
        assert (turn + rest)[3..] == rest;
      }
    }
  }

  /** From any reachable tables the deliveries can leave, all of them, one turn after the other. */
  lemma {:induction false} EveryoneLeaves(c: State, clock: Clock) returns (run: seq<Event>, c1: State)
    requires ReachableState(c)
    ensures Turns(c, run, c1) && c1.active == map[] && ReachableState(c1) && forall e :: e in run ==> e.clock == clock
    decreases |c.active|
  {
    if c.active == map[] {
      run, c1 := [], c;
    } else {
      var turn, next := NextLeaves(c, clock);
      var rest;
      rest, c1 := EveryoneLeaves(next, clock);
      run := turn + rest;
    }
  }

  /** Turns are calls in order, and leave the gate and the erasure as they are. */
  ghost predicate SameGate(c: State, c1: State) {
    c1.phase == c.phase && c1.gateExpires == c.gateExpires && c1.erasureStartedAt == c.erasureStartedAt
    && c1.failure == c.failure && c1.lastGeneration == c.lastGeneration
  }

  lemma DeliverySameGate(c: State, e: Event)
    requires e.call.OnDelivery?
    requires e.call.delivery.CallPlanWrite? || e.call.delivery.CallFinishDelivery? || e.call.delivery.CallExpire?
    ensures SameGate(c, Step(c, e.call, e.clock).state)
  {
    match e.call.delivery
    case CallPlanWrite(id, payload, days, moves) => PlanSameGate(c, id, payload, days, moves, e.clock);
    case CallFinishDelivery(id, payload, has, planned) => FinishSameGate(c, id, payload, has, planned, e.clock);
    case CallExpire(id, payload) =>
  }

  lemma PlanSameGate(c: State, id: string, payload: string, days: seq<Day>, moves: seq<Move>, clock: Clock)
    ensures SameGate(c, PlanWrite(c, id, payload, days, moves, clock).state)
  {
    var planned := ReplaceDirtyDays(c, id, payload, days, clock);
    assert SameGate(c, planned.state);
    assert SameGate(c, LinkDirtyDays(planned.state, id, payload, moves, clock).state);
  }

  lemma FinishSameGate(c: State, id: string, payload: string, has: bool, planned: set<Day>, clock: Clock)
    ensures SameGate(c, FinishDelivery(c, id, payload, has, planned, clock).state)
  {}

  lemma {:induction false} TurnsAreCalls(c: State, run: seq<Event>, c1: State)
    requires Turns(c, run, c1)
    ensures c1 == Continue(c, run) && SameGate(c, c1)
    ensures forall e :: e in run ==> e.call.OnDelivery?
    decreases |run|
  {
    if run == [] {
    } else if ExpireTurn(c, run[0]) && Turns(Step(c, run[0].call, run[0].clock).state, run[1..], c1) {
      DeliverySameGate(c, run[0]);
      TurnsAreCalls(Step(c, run[0].call, run[0].clock).state, run[1..], c1);
      ContinueOne(c, run[0]);
      ContinueConcat(c, [run[0]], run[1..]);
      assert run == [run[0]] + run[1..];
    } else {
      WriteTurnIsCalls(c, run[0], run[1], run[2]);
      TurnsAreCalls(AfterTurn(c, run[1], run[2]), run[3..], c1);
      ContinueConcat(c, [run[0], run[1], run[2]], run[3..]);
      assert run == [run[0], run[1], run[2]] + run[3..];
    }
  }

  lemma WriteTurnIsCalls(c: State, ask: Event, plan: Event, finish: Event)
    requires WriteTurn(c, ask, plan, finish)
    ensures Continue(c, [ask, plan, finish]) == AfterTurn(c, plan, finish) && SameGate(c, AfterTurn(c, plan, finish))
  {
    DeliverySameGate(c, plan);
    DeliverySameGate(Step(c, plan.call, plan.clock).state, finish);
    ContinueOne(c, ask);
    ContinueOne(c, plan);
    ContinueOne(Step(c, plan.call, plan.clock).state, finish);
    ContinueConcat(c, [ask], [plan]);
    ContinueConcat(c, [ask, plan], [finish]);
    assert [ask, plan, finish] == [ask, plan] + [finish] && [ask, plan] == [ask] + [plan];
  }

  /**
   * A drain always comes to its end: whatever the gate does, the deliveries can leave by their own
   * calls alone, each write asked for and granted first, and then a capture is no longer put off.
   */
  lemma DrainComesToItsEnd(c: State, claim: string, clock: Clock) returns (run: seq<Event>)
    requires ReachableState(c) && !c.phase.Snapshot?
    ensures Turns(c, run, Continue(c, run)) && Continue(c, run).active == map[]
    ensures Step(Continue(c, run), OnGate(CallBeginSnapshot(claim)), clock).reply != Nothing
  {
    var c1;
    run, c1 := EveryoneLeaves(c, clock);
    TurnsAreCalls(c, run, c1);
    ReachableStateInv(c1);
    RecoverFrame(c1, clock);
    RecoverKeepsOpen(c1, clock);
  }

  lemma RecoverKeepsOpen(c: State, clock: Clock)
    requires GateInv(c) && !c.phase.Snapshot?
    ensures RecoverAndPrune(c, clock).Ok? && !RecoverAndPrune(c, clock).value.phase.Snapshot?
  {}
}
