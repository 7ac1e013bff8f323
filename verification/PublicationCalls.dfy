/** Every coordinator call that callers may make keeps the world's invariant. */
module PublicationCalls {
  import opened Contract
  import opened CopyPlan
  import opened CoordinatorModel
  import opened CoordinatorInvariants
  import opened CoordinatorRuns
  import opened CoordinatorSafety
  import opened DirtyGraphSelection
  import opened FactStore
  import opened Publication
  import opened PublicationInvariants
  import opened PublicationSnapshots
  import DayGraph

  // ---- the window is fixed ----

  predicate SameWindow(w: World, clock: Clock) {
    clock.oldest == w.oldest && clock.today == w.today
  }

  lemma PruneIdle(c: State, clock: Clock)
    requires InWindow(c, clock.oldest, clock.today)
    ensures Prune(c, clock) == c
  {
    var p := Prune(c, clock);
    assert p.dirty == c.dirty && p.incomplete == c.incomplete && p.links == c.links;
  }

  /** The tables that hold deliveries and days. */
  predicate SameDayTables(c: State, c1: State) {
    && c1.active == c.active && c1.lastSequence == c.lastSequence
    && c1.dirty == c.dirty && c1.incomplete == c.incomplete && c1.links == c.links
    && c1.erasureStartedAt == c.erasureStartedAt
  }

  lemma FrameIsQuiet(c: State, c1: State, clock: Clock)
    requires Frame(c, c1, clock) && InWindow(c, clock.oldest, clock.today)
    ensures SameDayTables(c, c1)
  {
    forall d | d in c.dirty ensures d in c1.dirty {
      assert clock.Retains(d);
    }
    forall d | d in c.incomplete ensures d in c1.incomplete {
      assert clock.Retains(d);
    }
    assert c1.dirty == c.dirty && c1.incomplete == c.incomplete && c1.links == c.links;
  }

  lemma RecoverIsQuiet(c: State, clock: Clock)
    requires GateInv(c) && InWindow(c, clock.oldest, clock.today)
    ensures RecoverAndPrune(c, clock).Ok? && SameDayTables(c, RecoverAndPrune(c, clock).value)
  {
    RecoverFrame(c, clock);
    FrameIsQuiet(c, RecoverAndPrune(c, clock).value, clock);
  }

  // ---- the generation half ----

  ghost predicate JobAfter(w: World, out: Outcome, w': World) {
    w'.jobDone == (w.jobDone && out.state.intents.Keys == w.c.intents.Keys)
  }

  lemma SlotsStay(w: World, w': World, i: nat)
    requires SameRecords(w, w') && w'.c.activeGeneration == w.c.activeGeneration && w'.c.captured == w.c.captured
    ensures SlotsCurrent(w', i) == SlotsCurrent(w, i)
  {
    assert CopyDays(w'.c, i) == CopyDays(w.c, i);
  }

  lemma AdvanceKeepsCopies(w: World, call: Call, out: Outcome, w': World)
    requires CopiesInv(w) && Advanced(w.c, call, out) && w.jobDone
    requires SameRecords(w, w') && w'.c == out.state && JobAfter(w, out, w')
    ensures CopiesInv(w')
  {
    forall i: nat | i < Cursor(w'.c) ensures SlotsCurrent(w', i) {
      SlotsStay(w, w', i);
    }
    assert call.copy.key in w.c.intents.Keys && call.copy.key !in out.state.intents.Keys;
  }

  lemma StayKeepsCopies(w: World, out: Outcome, w': World)
    requires CopiesInv(w) && SameGeneration(w.c, out.state) && IdleInv(w.c) && GateInv(w.c)
    requires SameRecords(w, w') && w'.c == out.state && JobAfter(w, out, w')
    ensures CopiesInv(w')
  {
    if w.c.activeGeneration.Some? {
      forall i: nat ensures SlotsCurrent(w', i) == SlotsCurrent(w, i) {
        SlotsStay(w, w', i);
      }
    }
  }

  lemma ServeKeepsCopies(w: World, call: Call, out: Outcome, w': World)
    requires CopiesInv(w) && Moved(w.c, call, out) && IdleInv(w.c) && GateInv(w.c) && IdleInv(out.state) && GateInv(out.state)
    requires IsDone(call, out.reply) ==> w.jobDone
    requires SameRecords(w, w') && w'.c == out.state && JobAfter(w, out, w')
    ensures CopiesInv(w')
  {
    if SameGeneration(w.c, out.state) {
      StayKeepsCopies(w, out, w');
    } else if Advanced(w.c, call, out) {
      AdvanceKeepsCopies(w, call, out, w');
    }
  }

  lemma ServeKeepsManifests(w: World, call: Call, out: Outcome, w': World)
    requires ManifestInv(w) && Moved(w.c, call, out)
    requires SameRecords(w, w') && w'.c == out.state
    ensures ManifestInv(w')
  {
    assert forall t, d :: Visible(w', t, d) == Visible(w, t, d);
  }

  // ---- calls that leave the day tables alone ----

  /** The parts of the invariant that speak of deliveries, days and facts. */
  ghost predicate DayInv(w: World) {
    && WriterInv(w) && LinksInside(w) && RevisionInv(w)
    && Anchored(w) && Unique(w) && StrayInv(w) && Coherent(w)
  }

  lemma QuietKeeps(w: World, w': World)
    requires DayInv(w) && SameRecords(w, w') && w'.writer == w.writer && SameDayTables(w.c, w'.c)
    ensures DayInv(w')
  {
    assert Nodes(w') == Nodes(w);
    assert forall t, d :: Visible(w', t, d) == Visible(w, t, d);
  }

  // ---- reserving ----

  lemma ReserveIs(c: State, input: ReserveInput, clock: Clock)
    requires GateInv(c) && InWindow(c, clock.oldest, clock.today)
    ensures
      var c1 := Reserve(c, input, clock).state;
      || SameDayTables(c, c1)
      || (&& input.id !in c.active && c1.lastSequence == c.lastSequence + 1
          && SameDayTables(c, c1.(active := c.active, lastSequence := c.lastSequence))
          && c1.active == c.active[input.id :=
               Reservation(input.payload, c1.lastSequence, input.createdAt, input.expiresAt, DaySetOf(input.days))]
          && (forall d :: d in DaySetOf(input.days) ==> clock.Retains(d)))
  {
    RecoverIsQuiet(c, clock);
    ReserveOnShape(RecoverAndPrune(c, clock).value, input, clock);
  }

  lemma BelowMono(s: Store, a: nat, b: nat)
    requires Below(s, a) && a <= b
    ensures Below(s, b)
  {}

  lemma NewReservationKeepsRevisions(w: World, w': World, id: string, r: Reservation)
    requires RevisionInv(w) && SameRecords(w, w') && w'.writer == w.writer && (w.writer.Some? ==> w.writer.value.id in w.c.active)
    requires id !in w.c.active && r.sequence == w.c.lastSequence + 1
    requires w'.c.active == w.c.active[id := r] && w'.c.lastSequence == w.c.lastSequence + 1
    ensures RevisionInv(w')
  {
    BelowMono(w.store, w.c.lastSequence + 1, w'.c.lastSequence + 1);
  }

  lemma NewReservationKeepsWriter(w: World, w': World, id: string, r: Reservation)
    requires WriterInv(w) && DeliveriesInv(w.c) && SameRecords(w, w') && w'.writer == w.writer && w'.c.links == w.c.links
    requires id !in w.c.active && r.sequence == w.c.lastSequence + 1 && w'.c.active == w.c.active[id := r]
    ensures WriterInv(w')
  {}

  lemma NewReservationKeepsViews(w: World, w': World)
    requires SameRecords(w, w') && w'.writer == w.writer && WriterInv(w)
    requires w'.c.dirty == w.c.dirty && w'.c.incomplete == w.c.incomplete && w'.c.links == w.c.links
    requires forall id :: id in w.c.active ==> id in w'.c.active && w'.c.active[id] == w.c.active[id]
    requires LinksInside(w) && Anchored(w) && Unique(w) && StrayInv(w) && Coherent(w)
    ensures LinksInside(w') && Anchored(w') && Unique(w') && StrayInv(w') && Coherent(w')
  {
    assert Nodes(w') == Nodes(w);
    assert forall t, d :: Visible(w', t, d) == Visible(w, t, d);
  }

  lemma NewReservationKeeps(w: World, w': World, id: string, r: Reservation)
    requires DayInv(w) && DeliveriesInv(w.c) && SameRecords(w, w') && w'.writer == w.writer
    requires id !in w.c.active && r.sequence == w.c.lastSequence + 1
    requires w'.c.active == w.c.active[id := r] && w'.c.lastSequence == w.c.lastSequence + 1
    requires SameDayTables(w.c, w'.c.(active := w.c.active, lastSequence := w.c.lastSequence))
    ensures DayInv(w')
  {
    NewReservationKeepsRevisions(w, w', id, r);
    NewReservationKeepsWriter(w, w', id, r);
    NewReservationKeepsViews(w, w');
  }

  // ---- planning ----

  /** Planning sets the writer's days, adds its links, and marks it planned or not. */
  ghost predicate Planned(w: World, w': World) {
    && w.writer.Some? && w.writer.value.id in w.c.active
    && var x := w.writer.value;
    && w'.writer.Some? && w'.writer == Some(x.(planned := w'.writer.value.planned))
    && SameDayTables(w.c, w'.c.(active := w.c.active, links := w.c.links))
    && w'.c.active == w.c.active[x.id := w.c.active[x.id].(days := PlanDays(x.rows))]
    && w.c.links <= w'.c.links <= w.c.links + PlanLinks(x.rows)
    && (x.planned ==> w'.writer.value.planned)
    && (w'.writer.value.planned ==> PlanLinks(x.rows) <= w'.c.links)
    && (w'.c.links != w.c.links ==> w'.writer.value.planned)
  }

  lemma PlanLinksInside(rows: set<Row>)
    ensures forall l :: l in PlanLinks(rows) ==> l.a in PlanDays(rows) && l.b in PlanDays(rows)
  {}

  lemma PlanGrows(w: World, w': World)
    requires Planned(w, w') && WriterInv(w)
    ensures w'.writer.value.planned ==> PlanDays(w.writer.value.rows) <= Nodes(w')
    ensures Nodes(w) <= Nodes(w')
  {}

  lemma JoinedMono(nodes: set<Day>, links: set<Link>, nodes': set<Day>, links': set<Link>, a: Day, b: Day)
    requires nodes <= nodes' && links <= links' && Joined(nodes, links, a, b)
    ensures Joined(nodes', links', a, b)
  {
    if a != b {
      DayGraph.ConnectedMono(nodes, links, nodes', links', a, b);
    }
  }

  /** More days and more links keep every visible fact joined to where it is. */
  lemma AnchorsGrow(w: World, w': World)
    requires Anchored(w) && SameRecords(w, w') && Nodes(w) <= Nodes(w') && w.c.links <= w'.c.links
    ensures Anchored(w')
  {
    forall t, d, row | 0 <= t < TARGET_COUNT && row in Visible(w', t, d)
      ensures row.day == d && row.key in w'.store.index
      ensures Joined(Nodes(w'), w'.c.links, d, w'.store.index[row.key].day)
    {
      assert row in Visible(w, t, d);
      JoinedMono(Nodes(w), w.c.links, Nodes(w'), w'.c.links, d, w.store.index[row.key].day);
    }
  }

  lemma PlanKeepsLinks(w: World, w': World)
    requires Planned(w, w') && WriterInv(w) && LinksInside(w)
    ensures LinksInside(w')
  {
    PlanGrows(w, w');
    PlanLinksInside(w.writer.value.rows);
  }

  lemma PlanKeepsRevisions(w: World, w': World)
    requires Planned(w, w') && RevisionInv(w) && SameRecords(w, w')
    ensures RevisionInv(w')
  {}

  lemma PlanKeepsWriter(w: World, w': World)
    requires Planned(w, w') && WriterInv(w) && SameRecords(w, w')
    ensures WriterInv(w')
  {}

  lemma PlanKeepsViews(w: World, w': World)
    requires Planned(w, w') && SameRecords(w, w') && Unique(w) && StrayInv(w) && Coherent(w)
    ensures Unique(w') && StrayInv(w') && Coherent(w')
  {
    assert forall t, d :: Visible(w', t, d) == Visible(w, t, d);
    assert forall d :: Touched(w', d) == Touched(w, d);
  }

  lemma PlanKeeps(w: World, w': World)
    requires DayInv(w) && Planned(w, w') && SameRecords(w, w')
    ensures DayInv(w')
  {
    PlanGrows(w, w');
    AnchorsGrow(w, w');
    PlanKeepsLinks(w, w');
    PlanKeepsRevisions(w, w');
    PlanKeepsWriter(w, w');
    PlanKeepsViews(w, w');
  }

  // ---- leaving ----

  /** A delivery has left: its days are dirty, and incomplete unless it completed. */
  ghost predicate HasLeft(w: World, w': World, id: string, completed: bool) {
    && id in w.c.active
    && w'.c.lastSequence == w.c.lastSequence && w'.c.links == w.c.links
    && w'.c.active == w.c.active - {id}
    && w'.c.dirty == w.c.dirty + w.c.active[id].days
    && w'.c.incomplete == (if completed then w.c.incomplete else w.c.incomplete + w.c.active[id].days)
    && w'.writer == (if IsWriter(w, id) then None else w.writer)
    && (completed ==> IsWriter(w, id) && w.writer.value.planned && w.writer.value.landed == w.writer.value.rows)
  }

  lemma LeaveGrows(w: World, w': World, id: string, completed: bool)
    requires HasLeft(w, w', id, completed) && WriterInv(w)
    ensures Nodes(w) <= Nodes(w')
  {}

  lemma LeaveKeepsWriter(w: World, w': World, id: string, completed: bool)
    requires HasLeft(w, w', id, completed) && SameRecords(w, w') && WriterInv(w) && RevisionInv(w)
    ensures WriterInv(w') && RevisionInv(w')
  {}

  lemma LeaveKeepsStrays(w: World, w': World, id: string, completed: bool)
    requires HasLeft(w, w', id, completed) && SameRecords(w, w') && WriterInv(w) && StrayInv(w)
    ensures StrayInv(w')
  {
    forall key, d | Live(w'.store, key, d)
      ensures key in w'.store.index
      ensures w'.store.index[key].day == d || d in w'.c.incomplete ||
        (w'.writer.Some? && w'.writer.value.planned && TombAt(w'.writer.value.rows, key, d))
    {
      if IsWriter(w, id) && w.writer.value.planned && TombAt(w.writer.value.rows, key, d) {
        var t :| t in w.writer.value.rows && t.deleted && t.key == key && t.day == d;
        assert d in PlanDays(w.writer.value.rows);
      }
    }
  }

  lemma LeaveKeepsCoherence(w: World, w': World, id: string, completed: bool)
    requires HasLeft(w, w', id, completed) && SameRecords(w, w') && WriterInv(w) && Coherent(w)
    ensures Coherent(w')
  {
    assert forall t, d :: Visible(w', t, d) == Visible(w, t, d);
    forall d | d !in w'.c.dirty && !Touched(w', d) ensures d !in w.c.dirty && !Touched(w, d) {
      if IsWriter(w, id) {
        LandedInsideDays(w, d);
      }
    }
  }

  lemma LandedInsideDays(w: World, d: Day)
    requires WriterInv(w) && w.writer.Some? && d !in w.c.active[w.writer.value.id].days
    ensures !Touched(w, d)
  {
    forall row | row in w.writer.value.landed ensures row.day != d {
      assert row.day in PlanDays(w.writer.value.rows);
    }
  }

  lemma LeaveKeeps(w: World, w': World, id: string, completed: bool)
    requires DayInv(w) && HasLeft(w, w', id, completed) && SameRecords(w, w')
    ensures DayInv(w')
  {
    LeaveGrows(w, w', id, completed);
    AnchorsGrow(w, w');
    LeaveKeepsWriter(w, w', id, completed);
    LeaveKeepsStrays(w, w', id, completed);
    LeaveKeepsCoherence(w, w', id, completed);
    assert LinksInside(w');
    assert forall t, d :: Visible(w', t, d) == Visible(w, t, d);
  }

  // ---- resolving ----

  lemma ResolveKeepsDays(w: World, w': World, days: set<Day>)
    requires DayInv(w) && SameRecords(w, w') && w'.writer == w.writer
    requires SameDayTables(w.c, w'.c.(incomplete := w.c.incomplete)) && w'.c.incomplete == w.c.incomplete - days
    requires Resolvable(w, days)
    ensures DayInv(w')
  {
    assert Nodes(w') == Nodes(w);
    assert forall t, d :: Visible(w', t, d) == Visible(w, t, d);
  }

  // ---- finishing a snapshot ----

  /** The captured days are clean, and the links inside them are gone. */
  ghost predicate Cleared(w: World, w': World, days: set<Day>) {
    && SameDayTables(w.c, w'.c.(dirty := w.c.dirty, links := w.c.links))
    && w'.c.dirty == w.c.dirty - days && w'.c.links == DayGraph.LinksOutside(w.c.links, days)
    && w.writer.None? && w'.writer.None?
  }

  /** What every table shows of the captured days once their generation is published. */
  ghost predicate Shown(w: World, days: set<Day>) {
    forall t, d :: 0 <= t < TARGET_COUNT && d in days ==> Visible(w, t, d) == DayFacts(w.store, d)
  }

  lemma ClearKeepsLinks(w: World, w': World, days: set<Day>)
    requires Cleared(w, w', days) && LinksInside(w) && DayGraph.Closed(days, w.c.dirty, w.c.links)
    ensures LinksInside(w')
  {
    assert Nodes(w) == w.c.dirty && Nodes(w') == w.c.dirty - days;
    forall l | l in w'.c.links ensures l.a !in days && l.b !in days {
      assert DayGraph.Adjacent(w.c.links, l.a, l.b) && DayGraph.Adjacent(w.c.links, l.b, l.a);
    }
  }

  lemma ClearKeepsAnchors(w: World, w': World, days: set<Day>)
    requires Cleared(w, w', days) && SameRecords(w, w') && Anchored(w) && StrayInv(w) && Filed(w.store)
    requires Shown(w, days) && days !! w.c.incomplete && DayGraph.Closed(days, w.c.dirty, w.c.links)
    ensures Anchored(w')
  {
    assert Nodes(w) == w.c.dirty && Nodes(w') == w.c.dirty - days;
    forall t, d, row | 0 <= t < TARGET_COUNT && row in Visible(w', t, d)
      ensures row.day == d && row.key in w.store.index
      ensures Joined(Nodes(w'), w'.c.links, d, w.store.index[row.key].day)
    {
      assert row in Visible(w, t, d);
      if d in days {
        CapturedIsRepaired(w, days, row, d);
      } else if w.store.index[row.key].day != d {
        DayGraph.ConnectedOutsideClosed(days, w.c.dirty, w.c.links, w'.c.links, d, w.store.index[row.key].day);
      }
    }
  }

  lemma ClearKeeps(w: World, w': World, days: set<Day>)
    requires DayInv(w) && Cleared(w, w', days) && SameRecords(w, w')
    requires Shown(w, days) && days !! w.c.incomplete && DayGraph.Closed(days, w.c.dirty, w.c.links)
    ensures DayInv(w')
  {
    ClearKeepsLinks(w, w', days);
    ClearKeepsAnchors(w, w', days);
    assert forall t, d :: Visible(w', t, d) == Visible(w, t, d);
    assert RevisionInv(w');
  }

  // ---- one served call ----

  /** What is left to show of a served call besides the coordinator's own invariant. */
  ghost predicate Served(w: World, w': World) {
    DayInv(w') && w'.c.erasureStartedAt.None? && InWindow(w'.c, w.oldest, w.today)
  }

  lemma QuietServe(w: World, call: Call, clock: Clock)
    requires Kept(w) && DayInv(w) && SameDayTables(w.c, Step(w.c, call, clock).state)
    requires !(call.OnDelivery? && call.delivery.CallPlanWrite?)
    ensures Served(w, AfterServe(w, call, clock))
  {
    QuietKeeps(w, AfterServe(w, call, clock));
  }

  lemma FramedServe(w: World, call: Call, clock: Clock)
    requires Inv(w.c) && Kept(w) && DayInv(w) && SameWindow(w, clock) && Framed(call)
    ensures Served(w, AfterServe(w, call, clock))
  {
    StepFrame(w.c, call, clock);
    FrameIsQuiet(w.c, Step(w.c, call, clock).state, clock);
    QuietServe(w, call, clock);
  }

  lemma RecordServe(w: World, call: CopyCall, clock: Clock)
    requires Kept(w) && DayInv(w) && call.CallRecordIntent?
    ensures Served(w, AfterServe(w, OnCopy(call), clock))
  {
    RecordIntentShape(w.c, call.key, call.claim, call.copyIndex, call.startedAt, clock);
    QuietServe(w, OnCopy(call), clock);
  }

  lemma ErasureReadServe(w: World, clock: Clock)
    requires GateInv(w.c) && Kept(w) && DayInv(w) && SameWindow(w, clock)
    ensures Served(w, AfterServe(w, OnErasure(CallGetErasureState), clock))
  {
    RecoverIsQuiet(w.c, clock);
    QuietServe(w, OnErasure(CallGetErasureState), clock);
  }

  lemma ReserveServe(w: World, input: ReserveInput, clock: Clock)
    requires GateInv(w.c) && DeliveriesInv(w.c) && Kept(w) && DayInv(w) && SameWindow(w, clock)
    ensures Served(w, AfterServe(w, OnDelivery(CallReserve(input)), clock))
  {
    var call := OnDelivery(CallReserve(input));
    var w' := AfterServe(w, call, clock);
    ReserveIs(w.c, input, clock);
    if SameDayTables(w.c, w'.c) {
      QuietServe(w, call, clock);
    } else {
      NewReservationKeeps(w, w', input.id, w'.c.active[input.id]);
    }
  }

  lemma PlanIs(w: World, id: string, payload: string, days: seq<Day>, moves: seq<Move>, clock: Clock)
    requires WriterInv(w) && Allowed(w, OnDelivery(CallPlanWrite(id, payload, days, moves)))
    requires Step(w.c, OnDelivery(CallPlanWrite(id, payload, days, moves)), clock).state != w.c
    ensures
      var w' := AfterServe(w, OnDelivery(CallPlanWrite(id, payload, days, moves)), clock);
      && Planned(w, w') && (forall d :: d in PlanDays(w.writer.value.rows) ==> clock.Retains(d))
      && (w'.c.links == w.c.links || MovesFault(moves, clock).None?)
  {
    PlanWriteShape(w.c, id, payload, days, moves, clock);
    var x := w.writer.value;
    var w' := AfterServe(w, OnDelivery(CallPlanWrite(id, payload, days, moves)), clock);
    assert id in w'.c.active;
    if moves == [] {
      assert LinksOf(moves) == {};
    }
  }

  lemma PlanServe(w: World, id: string, payload: string, days: seq<Day>, moves: seq<Move>, clock: Clock)
    requires Kept(w) && DayInv(w) && SameWindow(w, clock)
    requires Allowed(w, OnDelivery(CallPlanWrite(id, payload, days, moves)))
    ensures Served(w, AfterServe(w, OnDelivery(CallPlanWrite(id, payload, days, moves)), clock))
  {
    var call := OnDelivery(CallPlanWrite(id, payload, days, moves));
    var w' := AfterServe(w, call, clock);
    if w'.c == w.c {
      PlanUnchanged(w, id, payload, days, moves, clock);
    } else {
      PlanIs(w, id, payload, days, moves, clock);
      PlanKeeps(w, w');
      PlanKeepsWindow(w, w', moves, clock);
    }
  }

  lemma PlanKeepsWindow(w: World, w': World, moves: seq<Move>, clock: Clock)
    requires Planned(w, w') && SameWindow(w, clock) && InWindow(w.c, w.oldest, w.today)
    requires forall d :: d in PlanDays(w.writer.value.rows) ==> clock.Retains(d)
    requires w'.c.links == w.c.links || MovesFault(moves, clock).None?
    ensures InWindow(w'.c, w.oldest, w.today)
  {
    PlanLinksInside(w.writer.value.rows);
    forall d | d in PlanDays(w.writer.value.rows) ensures Within(d, w.oldest, w.today) {
      assert clock.Retains(d);
    }
  }

  /** A plan that changes no table either was refused or repeats the accepted one. */
  lemma PlanUnchanged(w: World, id: string, payload: string, days: seq<Day>, moves: seq<Move>, clock: Clock)
    requires Kept(w) && DayInv(w) && Allowed(w, OnDelivery(CallPlanWrite(id, payload, days, moves)))
    requires Step(w.c, OnDelivery(CallPlanWrite(id, payload, days, moves)), clock).state == w.c
    ensures Served(w, AfterServe(w, OnDelivery(CallPlanWrite(id, payload, days, moves)), clock))
  {
    var w' := AfterServe(w, OnDelivery(CallPlanWrite(id, payload, days, moves)), clock);
    if w'.writer == w.writer {
      QuietKeeps(w, w');
    } else {
      PlanWriteShape(w.c, id, payload, days, moves, clock);
      if moves == [] {
        assert LinksOf(moves) == {};
      }
      UnchangedPlan(w, w');
      PlanKeeps(w, w');
    }
  }

  lemma UnchangedPlan(w: World, w': World)
    requires w.writer.Some? && w.writer.value.id in w.c.active && w'.c == w.c
    requires w.c.active[w.writer.value.id].days == PlanDays(w.writer.value.rows) && PlanLinks(w.writer.value.rows) <= w.c.links
    requires w'.writer == Some(w.writer.value.(planned := true))
    ensures Planned(w, w')
  {
    var x := w.writer.value;
    assert w.c.active[x.id := w.c.active[x.id].(days := PlanDays(x.rows))] == w.c.active;
  }

  /** A writer whose plan was accepted has its links already. */
  lemma LinkServe(w: World, id: string, payload: string, moves: seq<Move>, clock: Clock)
    requires Kept(w) && DayInv(w) && Allowed(w, OnDelivery(CallLinkDirtyDays(id, payload, moves)))
    ensures Served(w, AfterServe(w, OnDelivery(CallLinkDirtyDays(id, payload, moves)), clock))
  {
    LinkShape(w.c, id, payload, moves, clock);
    assert w.c.links + PlanLinks(w.writer.value.rows) == w.c.links;
    assert w.c.links + LinksOf(moves) == w.c.links;
    QuietServe(w, OnDelivery(CallLinkDirtyDays(id, payload, moves)), clock);
  }

  /** A delivery that leaves inside the window loses nothing to pruning. */
  lemma LeaveIs(w: World, id: string, incomplete: set<Day>, clock: Clock)
    requires Kept(w) && SameWindow(w, clock) && id in w.c.active
    requires incomplete <= w.c.incomplete + w.c.active[id].days
    ensures
      var left := w.c.(dirty := w.c.dirty + w.c.active[id].days, incomplete := incomplete, active := w.c.active - {id});
      Prune(left, clock) == left && InWindow(left, w.oldest, w.today)
  {
    PruneIdle(w.c.(dirty := w.c.dirty + w.c.active[id].days, incomplete := incomplete, active := w.c.active - {id}), clock);
  }

  lemma FinishDeliveryIs(c: State, id: string, payload: string, has: bool, planned: set<Day>, clock: Clock)
    ensures
      var c1 := FinishDelivery(c, id, payload, has, planned, clock).state;
      || c1 == c
      || (has && id in c.active && c1 == Prune(c.(dirty := c.dirty + c.active[id].days, active := c.active - {id}), clock))
  {}

  lemma FinishDeliveryServe(w: World, id: string, payload: string, has: bool, planned: set<Day>, clock: Clock)
    requires Kept(w) && DayInv(w) && SameWindow(w, clock)
    requires Allowed(w, OnDelivery(CallFinishDelivery(id, payload, has, planned)))
    ensures Served(w, AfterServe(w, OnDelivery(CallFinishDelivery(id, payload, has, planned)), clock))
  {
    var call := OnDelivery(CallFinishDelivery(id, payload, has, planned));
    var w' := AfterServe(w, call, clock);
    FinishDeliveryIs(w.c, id, payload, has, planned, clock);
    if w'.c == w.c {
      QuietServe(w, call, clock);
    } else {
      LeaveIs(w, id, w.c.incomplete, clock);
      assert w'.c == w.c.(dirty := w.c.dirty + w.c.active[id].days, active := w.c.active - {id});
      LeaveKeeps(w, w', id, true);
    }
  }

  lemma ExpireIs(c: State, id: string, payload: string, clock: Clock)
    ensures
      var c1 := Expire(c, id, payload, clock).state;
      || c1 == c
      || (id in c.active && c1 == Prune(c.(dirty := c.dirty + c.active[id].days,
            incomplete := c.incomplete + c.active[id].days, active := c.active - {id}), clock))
  {}

  lemma ExpireServe(w: World, id: string, payload: string, clock: Clock)
    requires Kept(w) && DayInv(w) && SameWindow(w, clock)
    ensures Served(w, AfterServe(w, OnDelivery(CallExpire(id, payload)), clock))
  {
    var call := OnDelivery(CallExpire(id, payload));
    var w' := AfterServe(w, call, clock);
    ExpireIs(w.c, id, payload, clock);
    if w'.c == w.c {
      QuietServe(w, call, clock);
    } else {
      LeaveIs(w, id, w.c.incomplete + w.c.active[id].days, clock);
      WriterStaysUnlessLeft(w, call, clock, id);
      LeaveKeeps(w, w', id, false);
    }
  }

  lemma WriterStaysUnlessLeft(w: World, call: Call, clock: Clock, id: string)
    requires WriterInv(w) && call.OnDelivery? && !call.delivery.CallPlanWrite?
    requires Step(w.c, call, clock).state.active == w.c.active - {id}
    ensures AfterServe(w, call, clock).writer == if IsWriter(w, id) then None else w.writer
  {}

  lemma ResolveServe(w: World, days: seq<Day>, clock: Clock)
    requires Kept(w) && DayInv(w) && Allowed(w, OnDelivery(CallResolveIncompleteDays(days)))
    ensures Served(w, AfterServe(w, OnDelivery(CallResolveIncompleteDays(days)), clock))
  {
    var call := OnDelivery(CallResolveIncompleteDays(days));
    var w' := AfterServe(w, call, clock);
    ResolveShape(w.c, days);
    if w'.c == w.c {
      QuietServe(w, call, clock);
    } else {
      ResolveKeepsDays(w, w', DaySetOf(days));
    }
  }

  lemma FinishIs(c: State, g: int, claim: string, clock: Clock)
    requires InWindow(c, clock.oldest, clock.today)
    ensures
      var c1 := FinishSnapshot(c, g, claim, clock).state;
      || c1 == c
      || (&& c.activeGeneration == Some(g)
          && var days := if g in c.captured then c.captured[g] else {};
          && SameDayTables(c, c1.(dirty := c.dirty, links := c.links))
          && c1.dirty == c.dirty - days && c1.links == DayGraph.LinksOutside(c.links, days))
  {
    var days := if g in c.captured then c.captured[g] else {};
    var base := c.(links := (set l | l in c.links && !(l.a in days && l.b in days)), dirty := c.dirty - days);
    var reopened := OpenGate(base.(captured := base.captured - {g}, progress := base.progress - {g}));
    PruneIdle(reopened, clock);
    assert FinishCapture(c, g, clock) == reopened;
    if AssertClaim(c, g, claim, clock).Ok? {
      ClaimHolder(c, g, claim, clock);
    }
  }

  lemma FinishSnapshotServe(w: World, g: int, claim: string, clock: Clock)
    requires GenerationInv(w.c) && Kept(w) && DayInv(w) && CopiesInv(w) && ManifestInv(w)
    requires SameWindow(w, clock) && g in w.manifests
    ensures Served(w, AfterServe(w, OnGate(CallFinishSnapshot(g, claim)), clock))
  {
    var call := OnGate(CallFinishSnapshot(g, claim));
    var w' := AfterServe(w, call, clock);
    FinishIs(w.c, g, claim, clock);
    if w'.c == w.c {
      QuietServe(w, call, clock);
    } else {
      SnapshotFacts(w);
      var days := w.c.captured[g];
      PublishedIsShown(w, g);
      ClearKeeps(w, w', days);
    }
  }

  /** The days of an active generation whose manifest is out show their current facts. */
  lemma PublishedIsShown(w: World, g: int)
    requires GateInv(w.c) && CaptureInv(w.c) && CopiesInv(w) && ManifestInv(w)
    requires w.c.activeGeneration == Some(g) && g in w.manifests
    ensures g in w.c.captured && Shown(w, w.c.captured[g])
  {
    forall t, d | 0 <= t < TARGET_COUNT && d in w.c.captured[g] ensures Visible(w, t, d) == DayFacts(w.store, d) {
      FullyCopied(w, t, d);
    }
  }

  lemma ServeKeepsDays(w: World, call: Call, clock: Clock)
    requires WorldInv(w) && SameWindow(w, clock) && Allowed(w, call)
    ensures Served(w, AfterServe(w, call, clock))
  {
    if Framed(call) {
      FramedServe(w, call, clock);
    } else {
      match call
      case OnDelivery(CallReserve(input)) => ReserveServe(w, input, clock);
      case OnDelivery(CallPlanWrite(id, payload, days, moves)) => PlanServe(w, id, payload, days, moves, clock);
      case OnDelivery(CallLinkDirtyDays(id, payload, moves)) => LinkServe(w, id, payload, moves, clock);
      case OnDelivery(CallFinishDelivery(id, payload, has, planned)) =>
        FinishDeliveryServe(w, id, payload, has, planned, clock);
      case OnDelivery(CallExpire(id, payload)) => ExpireServe(w, id, payload, clock);
      case OnDelivery(CallResolveIncompleteDays(days)) => ResolveServe(w, days, clock);
      case OnGate(CallFinishSnapshot(g, claim)) => FinishSnapshotServe(w, g, claim, clock);
      case OnCopy(copy) => RecordServe(w, copy, clock);
      case OnErasure(_) => ErasureReadServe(w, clock);
    }
  }

  lemma IdleGates(c: State)
    requires Inv(c)
    ensures IdleInv(c) && GateInv(c)
  {}

  /** A settlement that is accepted as done holds the claim and names the attached job. */
  lemma DoneNeedsJob(w: World, call: Call, out: Outcome)
    requires Moved(w.c, call, out) && Allowed(w, call)
    ensures IsDone(call, out.reply) ==> w.jobDone
  {}

  lemma ServeKeeps(w: World, call: Call, clock: Clock)
    requires WorldInv(w) && Enabled(w, Serve(call, clock))
    ensures WorldInv(Next(w, Serve(call, clock)))
  {
    var w' := AfterServe(w, call, clock);
    var out := Step(w.c, call, clock);
    ServeKeepsDays(w, call, clock);
    StepKeepsInv(w.c, call, clock);
    StepMoves(w.c, call, clock);
    DoneNeedsJob(w, call, out);
    IdleGates(w.c);
    IdleGates(out.state);
    ServeKeepsCopies(w, call, out, w');
    ServeKeepsManifests(w, call, out, w');
  }

  /** Every enabled step, of whatever kind, keeps the invariant. */
  lemma NextKeepsInv(w: World, a: Action)
    requires WorldInv(w) && Enabled(w, a)
    ensures WorldInv(Next(w, a))
  {
    match a
    case Serve(call, clock) => ServeKeeps(w, call, clock);
    case Prepare(id, live) => PrepareKeeps(w, id, live);
    case Land(row) => LandKeeps(w, row);
    case RunCopy => RunCopyKeeps(w);
    case RunRetired(slot, facts) => RunRetiredKeeps(w, slot, facts);
    case Publish => PublishKeeps(w);
  }
}
