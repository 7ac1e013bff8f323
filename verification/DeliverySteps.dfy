/**
 * What a delivery can count on between its own calls, and what its own calls do: in the
 * coordinator's tables, and in the world of facts and snapshots around them.
 */
module DeliverySteps {
  import opened Contract
  import opened CoordinatorModel
  import opened CoordinatorInvariants
  import opened CoordinatorRuns
  import opened CoordinatorSafety
  import opened DeliveryPartitions
  import opened FactStore
  import opened Publication
  import opened PublicationInvariants
  import opened PublicationRuns
  import opened SnapshotClaims

  // ---- what other callers may do ----

  /** A call that is not about this delivery. */
  predicate OtherCall(call: Call, id: string) {
    !Names(call, id) && !(call.OnDelivery? && call.delivery.CallReserve? && call.delivery.input.id == id)
  }

  predicate SameReservation(c: State, c1: State, id: string) {
    (id in c.active <==> id in c1.active) && (id in c.active ==> c1.active[id] == c.active[id])
  }

  lemma OtherReserve(c: State, input: ReserveInput, clock: Clock, id: string)
    requires GateInv(c) && input.id != id
    ensures SameReservation(c, Reserve(c, input, clock).state, id)
  {
    RecoverFrame(c, clock);
    ReserveOnShape(RecoverAndPrune(c, clock).value, input, clock);
  }

  lemma OtherCallLeavesAlone(c: State, call: Call, clock: Clock, id: string)
    requires Inv(c) && OtherCall(call, id)
    ensures SameReservation(c, Step(c, call, clock).state, id)
  {
    if Framed(call) {
      StepFrame(c, call, clock);
    } else if call.OnDelivery? && call.delivery.CallReserve? {
      OtherReserve(c, call.delivery.input, clock, id);
    } else {
      StepEffects(c, call, clock);
      OnlyReserveAdds(c, call, clock);
      EffectsLeaveAlone(c, call, Step(c, call, clock).state, id);
    }
  }

  lemma EffectsLeaveAlone(c: State, call: Call, c1: State, id: string)
    requires ActiveMoved(c, call, c1) && c1.active.Keys <= c.active.Keys && !Names(call, id)
    ensures SameReservation(c, c1, id)
  {}

  lemma OnlyReserveAdds(c: State, call: Call, clock: Clock)
    requires GateInv(c) && !Framed(call) && !(call.OnDelivery? && call.delivery.CallReserve?)
    ensures Step(c, call, clock).state.active.Keys <= c.active.Keys
  {
    match call
    case OnDelivery(delivery) => PlansAddNothing(c, delivery, clock);
    case OnGate(gate) => FinishAddsNothing(c, gate.generation, gate.claim, clock);
    case OnCopy(copy) => RecordIntentShape(c, copy.key, copy.claim, copy.copyIndex, copy.startedAt, clock);
    case OnErasure(erasure) => ErasureAddsNothing(c, erasure, clock);
  }

  lemma PlansAddNothing(c: State, call: DeliveryCall, clock: Clock)
    requires !call.CallReserve?
    ensures DeliveryStep(c, call, clock).state.active.Keys <= c.active.Keys
  {
    if call.CallLinkDirtyDays? {
      LinkShape(c, call.id, call.payload, call.moves, clock);
    } else if call.CallPlanWrite? {
      PlanWriteShape(c, call.id, call.payload, call.days, call.moves, clock);
    }
  }

  lemma FinishAddsNothing(c: State, g: int, claim: string, clock: Clock)
    ensures FinishSnapshot(c, g, claim, clock).state.active == c.active
  {}

  lemma ErasureAddsNothing(c: State, call: ErasureCall, clock: Clock)
    requires GateInv(c) && (call.CallBeginErasure? || call.CallGetErasureState?)
    ensures ErasureStep(c, call, clock).state.active.Keys <= c.active.Keys
  {
    RecoverFrame(c, clock);
  }

  lemma StepMovesActive(c: State, call: Call, clock: Clock)
    requires Inv(c)
    ensures ActiveMoved(c, call, Step(c, call, clock).state)
    ensures c.erasureStartedAt.Some? ==> Step(c, call, clock).state.erasureStartedAt.Some?
  {
    StepEffects(c, call, clock);
  }

  /** New reservations come later in sequence, so others never take the permit away. */
  lemma PermitStays(c: State, call: Call, clock: Clock, id: string)
    requires Inv(c) && OtherCall(call, id) && HoldsPermit(c, id)
    ensures HoldsPermit(Step(c, call, clock).state, id)
  {
    OtherCallLeavesAlone(c, call, clock, id);
    StepMovesActive(c, call, clock);
    var c1 := Step(c, call, clock).state;
    forall other | other in c1.active ensures c1.active[id].sequence <= c1.active[other].sequence {
      if other in c.active {
        assert c1.active[other].sequence == c.active[other].sequence;
      }
    }
  }

  ghost predicate OtherCalls(calls: seq<Event>, id: string) {
    forall e :: e in calls ==> OtherCall(e.call, id)
  }

  lemma {:induction false} OthersLeaveAlone(c: State, calls: seq<Event>, id: string)
    requires ReachableState(c) && OtherCalls(calls, id)
    ensures ReachableState(Continue(c, calls)) && SameReservation(c, Continue(c, calls), id)
    ensures HoldsPermit(c, id) ==> HoldsPermit(Continue(c, calls), id)
    ensures c.erasureStartedAt.Some? ==> Continue(c, calls).erasureStartedAt.Some?
  {
    if calls != [] {
      var init, last := calls[..|calls| - 1], calls[|calls| - 1];
      OthersLeaveAlone(c, init, id);
      ReachableStateInv(Continue(c, init));
      ReachableStateStep(Continue(c, init), last.call, last.clock);
      OtherCallLeavesAlone(Continue(c, init), last.call, last.clock, id);
      StepMovesActive(Continue(c, init), last.call, last.clock);
      if HoldsPermit(Continue(c, init), id) {
        PermitStays(Continue(c, init), last.call, last.clock, id);
      }
    }
  }

  // ---- this delivery's own calls ----

  lemma OwnReserveShape(c: State, input: ReserveInput, clock: Clock)
    requires GateInv(c)
    ensures
      var out := Reserve(c, input, clock);
      && (input.id in c.active ==> SameReservation(c, out.state, input.id))
      && (input.id in out.state.active && input.id !in c.active ==> out.state.active[input.id].payload == input.payload)
      && (out.reply.Reserved? || out.reply.Existing? ==>
            input.id in out.state.active && out.reply.sequence == out.state.active[input.id].sequence)
  {
    RecoverFrame(c, clock);
    ReserveOnShape(RecoverAndPrune(c, clock).value, input, clock);
  }

  lemma OwnReserve(c: State, input: ReserveInput, clock: Clock)
    requires ReachableState(c)
    ensures
      var out := Reserve(c, input, clock);
      && ReachableState(out.state)
      && (input.id in c.active ==> SameReservation(c, out.state, input.id))
      && (input.id in out.state.active && input.id !in c.active ==> out.state.active[input.id].payload == input.payload)
      && (out.reply.Reserved? || out.reply.Existing? ==>
            input.id in out.state.active && out.reply.sequence == out.state.active[input.id].sequence)
  {
    ReachableStateInv(c);
    ReachableStateStep(c, OnDelivery(CallReserve(input)), clock);
    OwnReserveShape(c, input, clock);
  }

  lemma OwnPlan(c: State, id: string, payload: string, days: seq<Day>, moves: seq<Move>, clock: Clock)
    requires ReachableState(c) && id in c.active
    ensures
      var out := PlanWrite(c, id, payload, days, moves, clock);
      && ReachableState(out.state) && id in out.state.active
      && out.state.active[id] == c.active[id].(days := out.state.active[id].days)
      && (out.reply.DaysPlanned? ==> out.state.active[id].days == DaySetOf(days))
  {
    ReachableStateStep(c, OnDelivery(CallPlanWrite(id, payload, days, moves)), clock);
    PlanWriteShape(c, id, payload, days, moves, clock);
  }

  /** Completing a reservation whose days are the planned ones removes it, and nothing is refused. */
  lemma OwnFinish(c: State, id: string, payload: string, has: bool, planned: set<Day>, clock: Clock)
    requires ReachableState(c) && (has <==> id in c.active) && (id in c.active ==> c.active[id].payload == payload)
    requires id in c.active ==> c.active[id].days == planned
    ensures
      var out := FinishDelivery(c, id, payload, has, planned, clock);
      && ReachableState(out.state) && id !in out.state.active && !out.reply.Refused?
  {
    ReachableStateStep(c, OnDelivery(CallFinishDelivery(id, payload, has, planned)), clock);
  }

  /** Expiring removes the reservation and marks every retained day of it dirty and incomplete. */
  lemma OwnExpire(c: State, id: string, payload: string, clock: Clock)
    requires ReachableState(c) && id in c.active && c.active[id].payload == payload
    ensures
      var out := Expire(c, id, payload, clock);
      && ReachableState(out.state)
      && (out.reply.Refused? ==> out.state == c)
      && (out.reply.Refused? <==> clock.now < c.active[id].expiresAt)
      && (!out.reply.Refused? ==>
            && id !in out.state.active && out.reply == Left(c.active[id].sequence, c.active[id].days)
            && forall d :: d in c.active[id].days && clock.Retains(d) ==> d in out.state.dirty && d in out.state.incomplete)
  {
    ReachableStateStep(c, OnDelivery(CallExpire(id, payload)), clock);
  }

  // ---- what others do in the world ----

  /** A step of others: no call about this delivery, no plan of its, and no row of its plan. */
  ghost predicate Foreign(w: World, a: Action, id: string) {
    match a
    case Serve(call, _) => OtherCall(call, id)
    case Prepare(other, _) => other != id
    case Land(_) => !IsWriter(w, id)
    case _ => true
  }

  /** A run of others leads from one world to another. */
  ghost predicate ForeignPath(w: World, run: seq<Action>, w1: World, id: string)
    decreases |run|
  {
    if run == [] then w1 == w
    else Enabled(w, run[0]) && Foreign(w, run[0], id) && ForeignPath(Next(w, run[0]), run[1..], w1, id)
  }

  /** No cell lost its row to an older one. */
  ghost predicate StoreGrew(s: Store, s1: Store) {
    forall cell :: cell in s.table ==> cell in s1.table && s1.table[cell].revision >= s.table[cell].revision
  }

  /** Every row is in its cell, or a later one is. */
  ghost predicate StoredOrLater(s: Store, rows: set<Row>) {
    forall row :: row in rows ==> CellOf(row) in s.table && s.table[CellOf(row)].revision >= row.revision
  }

  lemma InsertGrows(s: Store, row: Row)
    ensures StoreGrew(s, Insert(s, row)) && StoredOrLater(Insert(s, row), {row})
  {}

  /** What stays for a delivery: its reservation and, once it holds the permit, the facts as they are. */
  ghost predicate StaysFor(w: World, w1: World, id: string) {
    && w1.oldest == w.oldest && w1.today == w.today && SameReservation(w.c, w1.c, id)
    && (IsWriter(w1, id) <==> IsWriter(w, id)) && (IsWriter(w, id) ==> w1.writer == w.writer)
    && StoreGrew(w.store, w1.store)
    && (HoldsPermit(w.c, id) ==>
          HoldsPermit(w1.c, id) && w1.store == w.store && (w.writer.None? ==> w1.writer.None?))
  }

  /** While a delivery holds the permit, no other one is the writer. */
  lemma OnlyWriter(w: World, id: string)
    requires WorldInv(w) && HoldsPermit(w.c, id) && w.writer.Some?
    ensures IsWriter(w, id)
  {
    OthersComeLater(w.c, id);
    OthersComeLater(w.c, w.writer.value.id);
  }

  /** A call plans this delivery's write. */
  predicate Plans(call: Call, id: string) {
    call.OnDelivery? && call.delivery.CallPlanWrite? && call.delivery.id == id
  }

  /** The writer after a call that does not remove it: planned, once its plan was accepted. */
  function StillWriter(w: World, call: Call, out: Outcome, id: string): Writer
    requires w.writer.Some?
  {
    if out.reply.DaysPlanned? && Plans(call, id) then w.writer.value.(planned := true) else w.writer.value
  }

  /** What a call makes of a delivery that is the writer, or is not. */
  lemma ServedWriter(w: World, call: Call, out: Outcome, id: string)
    requires Allowed(w, call)
    ensures
      var writer := WriterAfter(w, call, out);
      && (w.writer.None? ==> writer.None?)
      && (writer.Some? && writer.value.id == id <==> IsWriter(w, id) && id in out.state.active)
      && (IsWriter(w, id) && id in out.state.active ==>
            writer == Some(StillWriter(w, call, out, id)))
  {}

  lemma OtherServeStays(w: World, call: Call, clock: Clock, id: string)
    requires WorldInv(w) && Allowed(w, call) && OtherCall(call, id)
    ensures StaysFor(w, AfterServe(w, call, clock), id)
  {
    OtherCallLeavesAlone(w.c, call, clock, id);
    ServedWriter(w, call, Step(w.c, call, clock), id);
    if HoldsPermit(w.c, id) {
      PermitStays(w.c, call, clock, id);
    }
  }

  lemma ForeignStays(w: World, a: Action, id: string)
    requires WorldInv(w) && Enabled(w, a) && Foreign(w, a, id)
    ensures StaysFor(w, Next(w, a), id)
  {
    match a
    case Serve(call, clock) => OtherServeStays(w, call, clock, id);
    case Prepare(other, _) =>
      if HoldsPermit(w.c, id) {
        OthersComeLater(w.c, id);
      }
    case Land(row) =>
      InsertGrows(w.store, row);
      if HoldsPermit(w.c, id) {
        OnlyWriter(w, id);
      }
    case _ =>
  }

  /** Whatever others do in a pause, it stays so, and the world is one that allowed steps lead to. */
  lemma {:induction false} ForeignPathStays(w: World, run: seq<Action>, w1: World, id: string)
    requires Reachable(w) && ReachableState(w.c) && ForeignPath(w, run, w1, id)
    ensures Reachable(w1) && ReachableState(w1.c) && StaysFor(w, w1, id)
    decreases |run|
  {
    if run != [] {
      ReachableWorldInv(w);
      ForeignStays(w, run[0], id);
      ReachableNext(w, run[0]);
      TablesStayReachable(w, run[0]);
      ForeignPathStays(Next(w, run[0]), run[1..], w1, id);
    }
  }

  lemma TablesStayReachable(w: World, a: Action)
    requires ReachableState(w.c) && Enabled(w, a)
    ensures ReachableState(Next(w, a).c)
  {
    if a.Serve? {
      ReachableStateStep(w.c, a.call, a.clock);
    }
  }

  // ---- what its own calls do in the world ----

  /** A call of its own that is allowed leads on, and only a call that removes it ends its write. */
  lemma OwnCallStays(w: World, call: Call, clock: Clock, id: string)
    requires Reachable(w) && Enabled(w, Serve(call, clock))
    ensures
      var out, w1 := Step(w.c, call, clock), AfterServe(w, call, clock);
      && Reachable(w1) && w1.c == out.state && w1.store == w.store && w1.oldest == w.oldest && w1.today == w.today
      && (IsWriter(w1, id) <==> IsWriter(w, id) && id in w1.c.active)
      && (IsWriter(w1, id) ==>
            w1.writer == Some(StillWriter(w, call, out, id)))
  {
    ServedWriter(w, call, Step(w.c, call, clock), id);
    ReachableNext(w, Serve(call, clock));
  }

  // ---- a delivery's plan ----

  /** The stored rows of a delivery. The day links read back from them are kept beside them. */
  datatype Plan = Plan(rows: set<Row>, moves: seq<Move>) {
    function Days(): set<Day> {
      PlanDays(rows)
    }
  }

  function RowsOf(rows: set<Row>, category: nat): set<Row> {
    set row | row in rows && row.key.category == category
  }

  /** The links are those of the rows, and every row is in one of the categories. */
  predicate IsPlan(plan: Plan) {
    LinksOf(plan.moves) == PlanLinks(plan.rows) && forall row :: row in plan.rows ==> row.key.category < CATEGORY_COUNT
  }

  function AllRows(lists: seq<seq<Row>>): set<Row> {
    set c, row | 0 <= c < |lists| && row in lists[c] :: row
  }

  /** Each list holds the live rows of its category, of one revision and one for each identity. */
  ghost predicate ByCategory(lists: seq<seq<Row>>, revision: nat) {
    forall c :: 0 <= c < |lists| ==>
      Canonical(lists[c]) && forall row :: row in lists[c] ==> row.key.category == c && row.revision == revision
  }

  ghost predicate PreparedAll(lists: seq<seq<Row>>, prepared: seq<seq<Row>>, index: map<Key, Row>) {
    |prepared| == |lists| && forall c :: 0 <= c < |lists| ==> RowSet(prepared[c]) == Prepared(RowSet(lists[c]), index)
  }

  lemma AllVersioned(lists: seq<seq<Row>>, revision: nat)
    requires ByCategory(lists, revision)
    ensures Versioned(AllRows(lists), revision)
  {
    forall a, b | a in AllRows(lists) && b in AllRows(lists) && a.key == b.key ensures a == b {
      var c :| 0 <= c < |lists| && a in lists[c];
      var d :| 0 <= d < |lists| && b in lists[d];
      assert c == a.key.category == d;
      var i :| 0 <= i < |lists[c]| && lists[c][i] == a;
      var j :| 0 <= j < |lists[c]| && lists[c][j] == b;
    }
  }

  lemma AllPrepared(lists: seq<seq<Row>>, prepared: seq<seq<Row>>, index: map<Key, Row>)
    requires PreparedAll(lists, prepared, index)
    ensures AllRows(prepared) == Prepared(AllRows(lists), index)
  {
    forall row | row in AllRows(prepared) ensures row in Prepared(AllRows(lists), index) {
      var c :| 0 <= c < |prepared| && row in prepared[c];
      assert row in RowSet(prepared[c]);
      if row !in lists[c] {
        var live :| live in RowSet(lists[c]) && Moves(live, index) && row == Tombstone(live, index);
        assert live in AllRows(lists);
      }
    }
    forall row | row in Prepared(AllRows(lists), index) ensures row in AllRows(prepared) {
      PreparedSomewhere(lists, prepared, index, row);
    }
  }

  lemma PreparedSomewhere(lists: seq<seq<Row>>, prepared: seq<seq<Row>>, index: map<Key, Row>, row: Row)
    requires PreparedAll(lists, prepared, index) && row in Prepared(AllRows(lists), index)
    ensures row in AllRows(prepared)
  {
    var live :| live in AllRows(lists) && (row == live || (Moves(live, index) && row == Tombstone(live, index)));
    var c :| 0 <= c < |lists| && live in lists[c];
    assert live in RowSet(lists[c]);
    assert row in RowSet(prepared[c]);
  }

  /** The moves of all categories are the links of the prepared rows. */
  lemma MovesAreLinks(lists: seq<seq<Row>>, prepared: seq<seq<Row>>, index: map<Key, Row>, revision: nat, moves: seq<Move>)
    requires ByCategory(lists, revision) && PreparedAll(lists, prepared, index)
    requires forall m :: m in moves <==> exists c :: 0 <= c < |lists| && m in MovedPairs(lists[c], index)
    ensures LinksOf(moves) == PlanLinks(AllRows(prepared))
  {
    var live := AllRows(lists);
    AllVersioned(lists, revision);
    AllPrepared(lists, prepared, index);
    PlanLinksAreTheMoves(live, index, revision);
    forall m | m in moves ensures LinkOf(m) in PlanLinks(AllRows(prepared)) {
      var c :| 0 <= c < |lists| && m in MovedPairs(lists[c], index);
      var row :| row in lists[c] && Moves(row, index) && m == Move(index[row.key].day, row.day);
      assert row in live;
    }
    forall l | l in PlanLinks(AllRows(prepared)) ensures l in LinksOf(moves) {
      var row :| row in live && Moves(row, index) && l == LinkOf(Move(index[row.key].day, row.day));
      var c :| 0 <= c < |lists| && row in lists[c];
      assert Move(index[row.key].day, row.day) in MovedPairs(lists[c], index);
    }
  }

  lemma AllInCategories(lists: seq<seq<Row>>, index: map<Key, Row>, revision: nat)
    requires ByCategory(lists, revision) && |lists| == CATEGORY_COUNT
    ensures forall row :: row in Prepared(AllRows(lists), index) ==> row.key.category < CATEGORY_COUNT
  {}

  /** The rows of a delivery as priced, category by category. */
  function PricedRows(raw: seq<seq<RawRow>>, revision: nat): set<Row> {
    set c, r | 0 <= c < |raw| && r in raw[c] :: Version(c, r, revision)
  }

  /** Two different rows of one identity, or an identity that is indexed with this or a later revision. */
  ghost predicate CannotBePlanned(raw: seq<seq<RawRow>>, index: map<Key, Row>, revision: nat) {
    || (exists c :: 0 <= c < |raw| && Conflicting(raw[c]))
    || (exists row :: row in PricedRows(raw, revision) && row.key in index && index[row.key].revision >= revision)
  }

  lemma ListsArePriced(lists: seq<seq<Row>>, raw: seq<seq<RawRow>>, revision: nat)
    requires |lists| == |raw| && forall c :: 0 <= c < |lists| ==> RowSet(lists[c]) == VersionedSet(c, raw[c], revision)
    ensures AllRows(lists) == PricedRows(raw, revision)
  {
    forall row | row in AllRows(lists) ensures row in PricedRows(raw, revision) {
      var c :| 0 <= c < |lists| && row in lists[c];
      assert row in RowSet(lists[c]);
    }
    forall row | row in PricedRows(raw, revision) ensures row in AllRows(lists) {
      var c, r :| 0 <= c < |raw| && r in raw[c] && row == Version(c, r, revision);
      assert row in RowSet(lists[c]);
    }
  }

  lemma OvertakenRows(lists: seq<seq<Row>>, index: map<Key, Row>, revision: nat)
    ensures Overtaken(lists, index, revision) <==>
      exists row :: row in AllRows(lists) && row.key in index && index[row.key].revision >= revision
  {
    if Overtaken(lists, index, revision) {
      var c, i :| 0 <= c < |lists| && 0 <= i < |lists[c]| &&
        lists[c][i].key in index && index[lists[c][i].key].revision >= revision;
      var row := lists[c][i];
      assert row in lists[c] && row in AllRows(lists);
    }
    if row :| row in AllRows(lists) && row.key in index && index[row.key].revision >= revision {
      var c :| 0 <= c < |lists| && row in lists[c];
      var i :| 0 <= i < |lists[c]| && lists[c][i] == row;
    }
  }

  /** Pricing keeps the identity and the day of each row; only messages, the first category, have a price. */
  predicate PricedAs(c: nat, unpriced: seq<RawRow>, raw: seq<RawRow>) {
    |raw| == |unpriced| && forall i :: 0 <= i < |raw| ==>
      raw[i] == if c == 0 then unpriced[i].(content := raw[i].content) else unpriced[i]
  }

  ghost predicate AllPriced(message: seq<seq<RawRow>>, raw: seq<seq<RawRow>>) {
    |raw| == |message| && forall c :: 0 <= c < |raw| ==> PricedAs(c, message[c], raw[c])
  }

  /** The cells of the facts of a message. */
  function FactCells(message: seq<seq<RawRow>>): set<Cell> {
    set c, r | 0 <= c < |message| && r in message[c] :: Cell(Key(c, r.identity), r.day)
  }

  function LiveCells(rows: set<Row>): set<Cell> {
    set row | row in rows && !row.deleted :: CellOf(row)
  }

  /** Whatever the prices, the live rows of a prepared delivery are in the cells of its facts, and every fact has one. */
  lemma PreparedCoversFacts(message: seq<seq<RawRow>>, raw: seq<seq<RawRow>>, revision: nat, index: map<Key, Row>)
    requires AllPriced(message, raw)
    ensures LiveCells(Prepared(PricedRows(raw, revision), index)) == FactCells(message)
  {
    var rows := PricedRows(raw, revision);
    forall cell | cell in LiveCells(Prepared(rows, index)) ensures cell in FactCells(message) {
      var row :| row in Prepared(rows, index) && !row.deleted && cell == CellOf(row);
      var c, r :| 0 <= c < |raw| && r in raw[c] && row == Version(c, r, revision);
      var i :| 0 <= i < |raw[c]| && raw[c][i] == r;
      assert message[c][i] in message[c];
    }
    forall cell | cell in FactCells(message) ensures cell in LiveCells(Prepared(rows, index)) {
      var c, r :| 0 <= c < |message| && r in message[c] && cell == Cell(Key(c, r.identity), r.day);
      var i :| 0 <= i < |message[c]| && message[c][i] == r;
      var row := Version(c, raw[c][i], revision);
      assert raw[c][i] in raw[c] && row in rows && row in Prepared(rows, index);
    }
  }

  /** Gives each row of a category its price. */
  method Price(c: nat, unpriced: seq<RawRow>) returns (raw: seq<RawRow>)
    ensures PricedAs(c, unpriced, raw)
  {
    raw := [];
    for i := 0 to |unpriced|
      invariant PricedAs(c, unpriced[..i], raw)
    {
      var priced: string := *;
      raw := raw + [if c == 0 then unpriced[i].(content := priced) else unpriced[i]];
    }
    assert unpriced[..|unpriced|] == unpriced;
  }

  /** Prices a category and makes one versioned row of each identity. */
  method PriceCategory(c: nat, unpriced: seq<RawRow>, revision: nat)
    returns (result: Result<seq<Row>, RowError>, ghost raw: seq<RawRow>)
    ensures PricedAs(c, unpriced, raw) && (result.Err? <==> Conflicting(raw))
    ensures result.Ok? ==> DistinctKeys(result.value) && RowSet(result.value) == VersionedSet(c, raw, revision)
    ensures result.Ok? ==> forall row :: row in result.value ==> !row.deleted && row.key.category == c && row.revision == revision
  {
    var priced := Price(c, unpriced);
    raw := priced;
    result := VersionCategory(c, priced, revision);
    if result.Ok? {
      forall row | row in result.value ensures !row.deleted && row.key.category == c && row.revision == revision {
        assert row in RowSet(result.value);
      }
    }
  }

  /**
   * Prices a delivery's message and prepares its rows against the index. It fails exactly when two rows of an
   * identity differ or the index has this or a later revision; else the plan holds all priced rows, and
   * is the one the world calls prepared.
   */
  method PriceAndPrepare(message: seq<seq<RawRow>>, revision: nat, index: map<Key, Row>)
    returns (plan: Option<Plan>, ghost raw: seq<seq<RawRow>>)
    requires |message| == CATEGORY_COUNT
    ensures plan.Some? ==> AllPriced(message, raw) && Versioned(PricedRows(raw, revision), revision) && IsPlan(plan.value)
    ensures plan.Some? ==> plan.value.rows == Prepared(PricedRows(raw, revision), index)
    ensures plan.None? <==> CannotBePlanned(raw, index, revision)
    ensures |raw| <= |message| && AllPriced(message[..|raw|], raw)
  {
    var lists: seq<seq<Row>> := [];
    raw := [];
    for c := 0 to CATEGORY_COUNT
      invariant |lists| == |raw| == c && ByCategory(lists, revision) && AllPriced(message[..c], raw)
      invariant forall k :: 0 <= k < c ==> !Conflicting(raw[k]) && RowSet(lists[k]) == VersionedSet(k, raw[k], revision)
    {
      ghost var priced;
      var versioned;
      versioned, priced := PriceCategory(c, message[c], revision);
      raw := raw + [priced];
      if versioned.Err? {
        assert Conflicting(raw[c]);
        return None, raw;
      }
      lists := lists + [versioned.value];
    }
    assert message[..CATEGORY_COUNT] == message;
    var delivery := new DeliveryRows(revision, lists);
    var days, moves := PlanDelivery(delivery, index);
    ListsArePriced(lists, raw, revision);
    OvertakenRows(lists, index, revision);
    if days.Err? {
      return None, raw;
    }
    AllVersioned(lists, revision);
    AllPrepared(lists, delivery.rows, index);
    AllInCategories(lists, index, revision);
    MovesAreLinks(lists, delivery.rows, index, revision, moves);
    plan := Some(Plan(AllRows(delivery.rows), moves));
  }
}
