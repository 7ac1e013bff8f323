/**
 * A run in which an incomplete day is resolved too early. A delivery leaves a fact on day 1. A
 * second one moves it to day 2: it lands the new row, not the tombstone, and expires, which leaves
 * both days incomplete. Resolving them is accepted all the same, and the next snapshot publishes the
 * fact on both days. Every other step of the run is allowed.
 */
module EarlyResolution {
  import opened Contract
  import opened CoordinatorModel
  import opened CoordinatorInvariants
  import opened FactStore
  import opened Publication
  import opened PublicationInvariants
  import opened PublicationCalls
  import opened PublicationRuns
  import opened IncompleteDays
  import opened CopyPlan
  import DayGraph

  const FACT := Key(0, "fact")
  const FIRST_ROW := Row(FACT, 1, 2, false, "")
  const MOVED_ROW := Row(FACT, 2, 3, false, "")
  const TOMBSTONE := Row(FACT, 1, 3, true, "")
  const MORNING := Clock(10, 1, 2)
  const EVENING := Clock(50, 1, 2)
  const FIRST_INPUT := ReserveInput("first", "p", [1], 0, 100)
  const MOVE_INPUT := ReserveInput("move", "q", [2], 0, 50)

  /** The coordinator's tables between snapshots, after so many reservations. */
  function Tables(last: nat, active: map<string, Reservation>, dirty: set<Day>, incomplete: set<Day>, links: set<Link>): State {
    State(last, 0, Open, None, None, active, dirty, incomplete, links, map[], map[], map[], None, None, None)
  }

  function At(c: State, store: Store, writer: Option<Writer>): World {
    World(1, 2, c, store, writer, map[], false, {}, map[])
  }

  function FirstReserved(): State {
    Tables(2, map["first" := Reservation("p", 2, 0, 100, {1})], {}, {}, {})
  }

  function FirstStore(): Store {
    Store(map[Cell(FACT, 1) := FIRST_ROW], map[FACT := FIRST_ROW])
  }

  function MovedStore(): Store {
    Store(map[Cell(FACT, 1) := FIRST_ROW, Cell(FACT, 2) := MOVED_ROW], map[FACT := MOVED_ROW])
  }

  function FirstDone(): World {
    At(Tables(2, map[], {1}, {}, {}), FirstStore(), None)
  }

  function MoveReserved(days: set<Day>, links: set<Link>): State {
    Tables(3, map["move" := Reservation("q", 3, 0, 50, days)], {1}, {}, links)
  }

  function MoveWriter(planned: bool, landed: set<Row>): Option<Writer> {
    Some(Writer("move", {MOVED_ROW, TOMBSTONE}, planned, landed))
  }

  function MovePlanned(): World {
    At(MoveReserved({1, 2}, {Link(1, 2)}), FirstStore(), MoveWriter(true, {}))
  }

  function AtFirst(store: Store, writer: Option<Writer>): World {
    At(FirstReserved(), store, writer)
  }

  function AtMove(writer: Option<Writer>): World {
    At(MoveReserved({2}, {}), FirstStore(), writer)
  }

  function MoveLanded(): World {
    At(MoveReserved({1, 2}, {Link(1, 2)}), MovedStore(), MoveWriter(true, {MOVED_ROW}))
  }

  /** The second delivery has expired with its tombstone missing. */
  function HalfMoved(): World {
    At(Tables(3, map[], {1, 2}, {1, 2}, {Link(1, 2)}), MovedStore(), None)
  }

  function Resolved(): World {
    At(Tables(3, map[], {1, 2}, {}, {Link(1, 2)}), MovedStore(), None)
  }

  // ---- runs put together ----

  ghost predicate Reaches(w: World, run: seq<Action>, w1: World) {
    IsRun(w, run) && End(w, run) == w1
  }

  lemma ReachesOne(w: World, a: Action, w1: World)
    requires Enabled(w, a) && Next(w, a) == w1
    ensures Reaches(w, [a], w1)
  {
    assert [a][1..] == [];
    assert IsRun(w1, []) && End(w1, []) == w1;
  }

  lemma ReachesOn(w: World, a: seq<Action>, w1: World, b: seq<Action>, w2: World)
    requires Reaches(w, a, w1) && Reaches(w1, b, w2)
    ensures Reaches(w, a + b, w2)
  {
    RunConcat(w, a, b);
  }

  lemma FewPending(c: State)
    requires PendingDays(c) <= {1, 2}
    ensures |PendingDays(c)| <= MAX_DIRTY_DAYS
  {
    DayGraph.SubsetCardinality(PendingDays(c), {1, 2});
  }

  // ---- the first delivery ----

  lemma FirstIsReserved() returns (run: seq<Action>)
    ensures Reaches(Start(1, 2), run, AtFirst(EMPTY_STORE, None))
  {
    FewPending(FirstReserved());
    assert DaySetOf([1]) == {1};
    run := [Serve(OnDelivery(CallReserve(FIRST_INPUT)), MORNING)];
    ReachesOne(Start(1, 2), run[0], AtFirst(EMPTY_STORE, None));
  }

  function FirstWriter(planned: bool, landed: set<Row>): Option<Writer> {
    Some(Writer("first", {FIRST_ROW}, planned, landed))
  }

  lemma FirstIsPlanned() returns (run: seq<Action>)
    ensures Reaches(AtFirst(EMPTY_STORE, None), run, AtFirst(EMPTY_STORE, FirstWriter(true, {})))
  {
    var w := AtFirst(EMPTY_STORE, None);
    var prepared, planned := AtFirst(EMPTY_STORE, FirstWriter(false, {})), AtFirst(EMPTY_STORE, FirstWriter(true, {}));
    var prepare := Prepare("first", {FIRST_ROW});
    var plan := Serve(OnDelivery(CallPlanWrite("first", "p", [1], [])), MORNING);
    assert Prepared({FIRST_ROW}, map[]) == {FIRST_ROW};
    ReachesOne(w, prepare, prepared);
    FirstPlan();
    ReachesOne(prepared, plan, planned);
    ReachesOn(w, [prepare], prepared, [plan], planned);
    run := [prepare] + [plan];
  }

  lemma FirstPlan()
    ensures Step(FirstReserved(), OnDelivery(CallPlanWrite("first", "p", [1], [])), MORNING) ==
      Outcome(FirstReserved(), DaysPlanned({1}))
    ensures DaySetOf([1]) == PlanDays({FIRST_ROW}) && LinksOf([]) == PlanLinks({FIRST_ROW})
  {
    assert DaySetOf([1]) == {1};
    var c1 := FirstReserved().(active := FirstReserved().active["first" := FirstReserved().active["first"].(days := {1})]);
    assert c1 == FirstReserved();
    FewPending(c1);
  }

  lemma FirstLands() returns (run: seq<Action>)
    ensures Reaches(AtFirst(EMPTY_STORE, FirstWriter(true, {})), run,
      AtFirst(FirstStore(), FirstWriter(true, {FIRST_ROW})))
  {
    assert Insert(EMPTY_STORE, FIRST_ROW) == FirstStore();
    assert {} + {FIRST_ROW} == {FIRST_ROW};
    run := [Land(FIRST_ROW)];
    ReachesOne(AtFirst(EMPTY_STORE, FirstWriter(true, {})), run[0],
      AtFirst(FirstStore(), FirstWriter(true, {FIRST_ROW})));
  }

  lemma FirstFinishes() returns (run: seq<Action>)
    ensures Reaches(AtFirst(FirstStore(), FirstWriter(true, {FIRST_ROW})), run, FirstDone())
  {
    run := [Serve(OnDelivery(CallFinishDelivery("first", "p", true, {1})), MORNING)];
    ReachesOne(AtFirst(FirstStore(), FirstWriter(true, {FIRST_ROW})), run[0], FirstDone());
  }

  /** The fact is delivered on day 1. */
  lemma FirstIsDelivered() returns (run: seq<Action>)
    ensures Reaches(Start(1, 2), run, FirstDone())
  {
    var reserve := FirstIsReserved();
    var plan := FirstIsPlanned();
    var land := FirstLands();
    var finish := FirstFinishes();
    var reserved, planned := AtFirst(EMPTY_STORE, None), AtFirst(EMPTY_STORE, FirstWriter(true, {}));
    var landed := AtFirst(FirstStore(), FirstWriter(true, {FIRST_ROW}));
    ReachesOn(Start(1, 2), reserve, reserved, plan, planned);
    ReachesOn(Start(1, 2), reserve + plan, planned, land, landed);
    ReachesOn(Start(1, 2), reserve + plan + land, landed, finish, FirstDone());
    run := reserve + plan + land + finish;
  }

  // ---- the second delivery ----

  lemma MoveFits()
    ensures InsertReservation(FirstDone().c, MOVE_INPUT) == MoveReserved({2}, {})
    ensures WindowFault(MOVE_INPUT, MORNING).None? && |PendingDays(MoveReserved({2}, {}))| <= MAX_DIRTY_DAYS
  {
    assert DaySetOf([2]) == {2};
    FewPending(MoveReserved({2}, {}));
  }

  lemma NothingToPrune()
    ensures RecoverAndPrune(FirstDone().c, MORNING) == Ok(FirstDone().c)
  {
    PruneIdle(FirstDone().c, MORNING);
  }

  lemma MoveReserve()
    ensures Step(FirstDone().c, OnDelivery(CallReserve(MOVE_INPUT)), MORNING) == Outcome(MoveReserved({2}, {}), Reserved(3))
  {
    MoveFits();
    NothingToPrune();
    assert ReserveNew(FirstDone().c, MOVE_INPUT, MORNING) == Outcome(MoveReserved({2}, {}), Reserved(3));
  }

  lemma MoveIsReserved() returns (run: seq<Action>)
    ensures Reaches(FirstDone(), run, AtMove(None))
  {
    MoveReserve();
    run := [Serve(OnDelivery(CallReserve(MOVE_INPUT)), MORNING)];
    ReachesOne(FirstDone(), run[0], AtMove(None));
  }

  lemma MoveIsPrepared() returns (run: seq<Action>)
    ensures Reaches(AtMove(None), run, AtMove(MoveWriter(false, {})))
  {
    var index := FirstStore().index;
    assert Moves(MOVED_ROW, index) && Tombstone(MOVED_ROW, index) == TOMBSTONE;
    assert Prepared({MOVED_ROW}, index) == {MOVED_ROW, TOMBSTONE};
    run := [Prepare("move", {MOVED_ROW})];
    ReachesOne(AtMove(None), run[0], AtMove(MoveWriter(false, {})));
  }

  lemma MoveRows()
    ensures DaySetOf([1, 2]) == {1, 2} == PlanDays({MOVED_ROW, TOMBSTONE})
    ensures LinksOf([Move(1, 2)]) == {Link(1, 2)} == PlanLinks({MOVED_ROW, TOMBSTONE})
    ensures LinkNodes({Link(1, 2)}) == {1, 2}
  {
    var rows := {MOVED_ROW, TOMBSTONE};
    assert MOVED_ROW.day in PlanDays(rows) && TOMBSTONE.day in PlanDays(rows);
    assert TOMBSTONE in rows && MOVED_ROW in rows && LinkOf(Move(1, 2)) == Link(1, 2);
    assert Link(1, 2) in PlanLinks(rows);
    assert Link(1, 2) in {Link(1, 2)};
  }

  lemma MoveDays()
    ensures ReplaceDirtyDays(MoveReserved({2}, {}), "move", "q", [1, 2], MORNING) ==
      Outcome(MoveReserved({1, 2}, {}), DaysPlanned({1, 2}))
  {
    MoveRows();
    var c := MoveReserved({2}, {});
    assert c.(active := c.active["move" := c.active["move"].(days := {1, 2})]) == MoveReserved({1, 2}, {});
    FewPending(MoveReserved({1, 2}, {}));
  }

  lemma MoveLink()
    ensures LinkDirtyDays(MoveReserved({1, 2}, {}), "move", "q", [Move(1, 2)], MORNING) ==
      Outcome(MoveReserved({1, 2}, {Link(1, 2)}), LinksAdded(1))
  {
    MoveRows();
    assert {} + {Link(1, 2)} == {Link(1, 2)};
  }

  lemma MovePlan()
    ensures Step(MoveReserved({2}, {}), OnDelivery(CallPlanWrite("move", "q", [1, 2], [Move(1, 2)])), MORNING) ==
      Outcome(MoveReserved({1, 2}, {Link(1, 2)}), DaysPlanned({1, 2}))
  {
    MoveDays();
    MoveLink();
  }

  lemma MoveIsPlanned() returns (run: seq<Action>)
    ensures Reaches(AtMove(MoveWriter(false, {})), run, MovePlanned())
  {
    MovePlan();
    MoveRows();
    run := [Serve(OnDelivery(CallPlanWrite("move", "q", [1, 2], [Move(1, 2)])), MORNING)];
    ReachesOne(AtMove(MoveWriter(false, {})), run[0], MovePlanned());
  }

  /** The new row lands, the tombstone does not. */
  lemma MoveLands() returns (run: seq<Action>)
    ensures Reaches(MovePlanned(), run, MoveLanded())
  {
    assert Insert(FirstStore(), MOVED_ROW) == MovedStore();
    assert {} + {MOVED_ROW} == {MOVED_ROW};
    run := [Land(MOVED_ROW)];
    ReachesOne(MovePlanned(), run[0], MoveLanded());
  }

  lemma MoveExpires() returns (run: seq<Action>)
    ensures Reaches(MoveLanded(), run, HalfMoved())
  {
    run := [Serve(OnDelivery(CallExpire("move", "q")), EVENING)];
    ReachesOne(MoveLanded(), run[0], HalfMoved());
  }

  /** Both days are incomplete, and the fact is live on both. */
  lemma MoveIsLeftHalfway() returns (run: seq<Action>)
    ensures Reaches(FirstDone(), run, HalfMoved())
  {
    var reserve := MoveIsReserved();
    var prepare := MoveIsPrepared();
    var plan := MoveIsPlanned();
    var land := MoveLands();
    var expire := MoveExpires();
    var reserved, prepared, landed := AtMove(None), AtMove(MoveWriter(false, {})), MoveLanded();
    ReachesOn(FirstDone(), reserve, reserved, prepare, prepared);
    ReachesOn(FirstDone(), reserve + prepare, prepared, plan, MovePlanned());
    ReachesOn(FirstDone(), reserve + prepare + plan, MovePlanned(), land, landed);
    ReachesOn(FirstDone(), reserve + prepare + plan + land, landed, expire, HalfMoved());
    run := reserve + prepare + plan + land + expire;
  }

  // ---- the operator's call, and what follows ----

  /** The call is accepted although the condition fails. */
  ghost predicate ResolvedTooEarly(w: World, days: seq<Day>, clock: Clock) {
    Step(w.c, ResolveCall(days), clock).reply.DaysResolved? && !Resolvable(w, DaySetOf(days))
  }

  lemma ResolvingIsAccepted()
    ensures Step(HalfMoved().c, ResolveCall([1, 2]), EVENING) == Outcome(Resolved().c, DaysResolved(2))
    ensures AfterServe(HalfMoved(), ResolveCall([1, 2]), EVENING) == Resolved()
    ensures ResolvedTooEarly(HalfMoved(), [1, 2], EVENING)
  {
    assert DaySetOf([1, 2]) == {1, 2};
    assert Live(HalfMoved().store, FACT, 1);
  }

  lemma BothDaysAreSelected()
    ensures DayGraph.Select({1, 2}, {}, {Link(1, 2)}) == {1, 2}
  {
    var nodes, links := {1, 2}, {Link(1, 2)};
    DayGraph.SelectIsCapture(nodes, {}, links);
    var days := DayGraph.Select(nodes, {}, links);
    assert DayGraph.Eligible(nodes, {}, links, 1);
    assert 1 in DayGraph.EligibleIn(nodes, {}, links, nodes);
    assert DayGraph.Adjacent(links, 1, 2) && DayGraph.Adjacent(links, 2, 1);
    assert 1 in days || 2 in days by {
      DayGraph.NonEmpty(days);
    }
  }

  lemma ResolvedCanBeCaptured()
    ensures CanCapture(Resolved(), EVENING)
  {
    BothDaysAreSelected();
  }

  lemma ResolvedIsWorkable()
    requires WorldInv(HalfMoved())
    ensures Workable(Resolved()) && Filed(Resolved().store)
  {
    ResolvingIsAccepted();
    StepKeepsInv(HalfMoved().c, ResolveCall([1, 2]), EVENING);
  }

  lemma HalfMovedIsReached() returns (run: seq<Action>)
    ensures Reaches(Start(1, 2), run, HalfMoved()) && WorldInv(HalfMoved())
  {
    var first := FirstIsDelivered();
    var second := MoveIsLeftHalfway();
    ReachesOn(Start(1, 2), first, FirstDone(), second, HalfMoved());
    run := first + second;
    StartInv(1, 2);
    RunKeepsInv(Start(1, 2), run);
  }

  lemma ResolvedIsPublishedTwice() returns (run: seq<Action>)
    requires WorldInv(HalfMoved())
    ensures IsRun(Resolved(), run) && !Unique(End(Resolved(), run))
  {
    ResolvedIsWorkable();
    ResolvedCanBeCaptured();
    BothDaysAreSelected();
    run := LiveTwiceIsPublishedTwice(Resolved(), FACT, 1, 2, "claim", EVENING);
  }

  /**
   * The counterexample: allowed steps lead to a world where the coordinator accepts the call although
   * the condition fails; allowed steps after it publish the fact on both days.
   */
  lemma ResolvingTooEarlyPublishesTwice() returns (before: seq<Action>, w: World, after: seq<Action>)
    ensures IsRun(Start(1, 2), before) && End(Start(1, 2), before) == w
    ensures ResolvedTooEarly(w, [1, 2], EVENING)
    ensures IsRun(AfterServe(w, ResolveCall([1, 2]), EVENING), after)
    ensures !Unique(End(AfterServe(w, ResolveCall([1, 2]), EVENING), after))
  {
    before := HalfMovedIsReached();
    w := HalfMoved();
    after := ResolvedIsPublishedTwice();
    ResolvingIsAccepted();
  }
}
