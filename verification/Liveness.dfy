/** The coordinator never gets stuck: deliveries can leave, complete days can be published, and new deliveries come in. */
module Liveness {
  import opened Contract
  import opened CoordinatorModel
  import opened CoordinatorInvariants
  import opened CoordinatorRuns
  import opened CoordinatorReplies
  import opened CoordinatorSafety
  import opened Draining
  import opened PublicationInvariants
  import opened SnapshotRounds
  import opened WritePermit
  import DayGraph

  /** Old numbers are not used up, and an old lease is over. */
  predicate Fresh(c: State, clock: Clock) {
    Room(c, MAX_DIRTY_DAYS) && c.lastSequence < MAX_SAFE_INTEGER && LeaseOver(c, clock)
  }

  lemma RestIsQuiescent(c: State, clock: Clock)
    requires Inv(c) && !c.phase.Snapshot? && c.active == map[] && c.erasureStartedAt.None?
    ensures Quiescent(StartsFrom(c, clock), clock.oldest, clock.today)
    ensures Fresh(c, clock) ==> Fresh(StartsFrom(c, clock), clock)
    ensures Step(c, OnGate(CallGetStats), clock).state == StartsFrom(c, clock)
  {
    CountersForgetOldDays(c, clock);
    StepKeepsInv(c, OnGate(CallGetStats), clock);
    StartIsInWindow(c, clock);
  }

  lemma StartIsInWindow(c: State, clock: Clock)
    requires !c.phase.Snapshot? && c.active == map[]
    ensures InWindow(StartsFrom(c, clock), clock.oldest, clock.today)
  {}

  lemma FewDirty(c: State)
    requires Inv(c)
    ensures |c.dirty| <= MAX_DIRTY_DAYS
  {
    DayGraph.SubsetCardinality(c.dirty, PendingDays(c));
  }

  /** What is left when everything came to rest: the days joined to an incomplete day. */
  ghost function StuckDays(c: State): set<Day> {
    DayGraph.Stuck(c.dirty, c.incomplete, c.links)
  }

  lemma TurnsAreFresh(c: State, run: seq<Event>, c1: State, clock: Clock)
    requires Turns(c, run, c1) && Fresh(c, clock)
    ensures c1 == Continue(c, run) && SameGate(c, c1) && Fresh(c1, clock)
  {
    TurnsAreCalls(c, run, c1);
    TurnsKeepSequence(c, run, c1);
  }

  lemma TurnKeepsSequence(c: State, call: Call, clock: Clock)
    requires call.OnDelivery? && !call.delivery.CallReserve?
    ensures Step(c, call, clock).state.lastSequence == c.lastSequence
  {
    if call.delivery.CallPlanWrite? {
      PlanWriteShape(c, call.delivery.id, call.delivery.payload, call.delivery.days, call.delivery.moves, clock);
    } else if call.delivery.CallLinkDirtyDays? {
      LinkShape(c, call.delivery.id, call.delivery.payload, call.delivery.moves, clock);
    }
  }

  lemma {:induction false} TurnsKeepSequence(c: State, run: seq<Event>, c1: State)
    requires Turns(c, run, c1)
    ensures c1.lastSequence == c.lastSequence
    decreases |run|
  {
    if run == [] {
    } else if ExpireTurn(c, run[0]) && Turns(Step(c, run[0].call, run[0].clock).state, run[1..], c1) {
      TurnKeepsSequence(c, run[0].call, run[0].clock);
      TurnsKeepSequence(Step(c, run[0].call, run[0].clock).state, run[1..], c1);
    } else {
      TurnKeepsSequence(c, run[1].call, run[1].clock);
      TurnKeepsSequence(Step(c, run[1].call, run[1].clock).state, run[2].call, run[2].clock);
      TurnsKeepSequence(AfterTurn(c, run[1], run[2]), run[3..], c1);
    }
  }

  /** Every delivery has left, outside a snapshot and an erasure. */
  ghost predicate AllLeft(c: State, clock: Clock) {
    Inv(c) && !c.phase.Snapshot? && c.active == map[] && c.erasureStartedAt.None? && Fresh(c, clock)
  }

  lemma TurnsToLeave(c: State, clock: Clock) returns (turns: seq<Event>)
    requires ReachableState(c) && !c.phase.Snapshot? && c.erasureStartedAt.None? && Fresh(c, clock)
    ensures Turns(c, turns, Continue(c, turns)) && AllLeft(Continue(c, turns), clock)
  {
    var left;
    turns, left := EveryoneLeaves(c, clock);
    TurnsAreFresh(c, turns, left, clock);
    ReachableStateInv(left);
  }

  /** Without deliveries, some run of snapshot calls publishes what can be published. */
  lemma RoundsToRest(c: State, claim: string, clock: Clock) returns (rounds: seq<Event>)
    requires AllLeft(c, clock)
    ensures forall e :: e in rounds ==> RoundCall(e.call)
    ensures
      var rest := Continue(c, rounds);
      && AtRest(rest, clock) && rest.dirty == StuckDays(StartsFrom(c, clock))
  {
    RestIsQuiescent(c, clock);
    var run := DrainedToRest(StartsFrom(c, clock), claim, clock);
    var stats := Event(OnGate(CallGetStats), clock);
    ContinueOne(c, stats);
    ContinueConcat(c, [stats], run);
    rounds := [stats] + run;
  }

  lemma DrainedToRest(c: State, claim: string, clock: Clock) returns (run: seq<Event>)
    requires Quiescent(c, clock.oldest, clock.today) && Fresh(c, clock)
    ensures forall e :: e in run ==> RoundCall(e.call)
    ensures AtRest(Continue(c, run), clock) && Continue(c, run).dirty == StuckDays(c)
  {
    FewDirty(c);
    run := DrainingCanEnd(c, claim, clock);
  }

  /** No delivery is active, every day is retained, and the gate lets deliveries in. */
  ghost predicate AtRest(c: State, clock: Clock) {
    Quiescent(c, clock.oldest, clock.today) && Between(c, clock) && c.lastSequence < MAX_SAFE_INTEGER
  }

  lemma RestAdmits(c: State, clock: Clock, input: ReserveInput)
    requires AtRest(c, clock) && Proper(input, clock) && |c.dirty + DaySetOf(input.days)| <= MAX_DIRTY_DAYS
    ensures Step(c, OnDelivery(CallReserve(input)), clock).reply == Reserved(c.lastSequence + 1)
  {
    AdmittedIff(c, input, clock);
    assert RetainedPending(c, clock) == c.dirty by {
      assert DeliveryDays(c) == {};
    }
  }

  /** A proper delivery is admitted if its days and the dirty ones are not too many. */
  ghost predicate AdmitsNext(c: State, clock: Clock, input: ReserveInput) {
    Proper(input, clock) && |c.dirty + DaySetOf(input.days)| <= MAX_DIRTY_DAYS ==>
      Step(c, OnDelivery(CallReserve(input)), clock).reply == Reserved(c.lastSequence + 1)
  }

  /**
   * From any reachable tables outside a snapshot and an erasure, once an old lease is over and while
   * numbers last: the deliveries can leave by turns of their own, then snapshot calls can publish every
   * day that is not joined to an incomplete one, and then a new delivery is admitted as long as its
   * days and those that stay dirty are not too many.
   */
  lemma NeverStuck(c: State, claim: string, clock: Clock, input: ReserveInput) returns (turns: seq<Event>, rounds: seq<Event>)
    requires ReachableState(c) && !c.phase.Snapshot? && c.erasureStartedAt.None? && Fresh(c, clock)
    ensures Turns(c, turns, Continue(c, turns)) && Continue(c, turns).active == map[]
    ensures forall e :: e in rounds ==> RoundCall(e.call)
    ensures
      var rest := Continue(Continue(c, turns), rounds);
      rest.dirty == StuckDays(StartsFrom(Continue(c, turns), clock)) && AdmitsNext(rest, clock, input)
  {
    turns := TurnsToLeave(c, clock);
    var left := Continue(c, turns);
    rounds := RoundsToRest(left, claim, clock);
    RestAdmitsProper(Continue(left, rounds), clock, input);
  }

  lemma RestAdmitsProper(c: State, clock: Clock, input: ReserveInput)
    requires AtRest(c, clock)
    ensures AdmitsNext(c, clock, input)
  {
    if Proper(input, clock) && |c.dirty + DaySetOf(input.days)| <= MAX_DIRTY_DAYS {
      RestAdmits(c, clock, input);
    }
  }
}
