/**
 * One delivery's receipt: a persistent record that a queue consumer and an alarm drive to completion
 * or expiry. Between any two storage writes the object may crash, and any reply may be lost after
 * the call took effect; other deliveries and snapshots keep calling the coordinator meanwhile.
 *
 * In a fixed retention window without an erasure the object moves in the world of facts and
 * snapshots. Verifying its methods then discharges what the publication argument assumes of a
 * delivery: it plans exactly the days and links of its stored rows, lands only those rows, and
 * completes only when all of them have landed.
 */
module DeliveryReceipt {
  import opened Contract
  import opened CoordinatorModel
  import opened CoordinatorRuns
  import opened DeliveryPartitions
  import opened DeliverySteps
  import opened FactStore
  import opened Publication
  import opened PublicationInvariants
  import opened PublicationRuns
  import opened SnapshotClaims

  datatype ReceiptPhase = Registered | Committing | Complete | Expired

  datatype Mark = Attempting | Marked

  datatype Receipt = Receipt(
    revision: Option<nat>, plan: Option<Plan>, planned: Option<set<Day>>, marks: map<nat, Mark>, phase: ReceiptPhase)

  /** How a reservation left the coordinator. */
  datatype Exit = Completed(rows: set<Row>) | ExpiredAt(days: set<Day>)

  datatype ProcessResult = Finished | Waiting | Failed | Crashed

  /**
   * What kept an operation from its end: something was lost in a crash or on the way, the coordinator
   * gave an answer that puts it off or refuses it, the rows cannot be planned, or it is not for this receipt.
   */
  datatype Obstacle =
    | NoObstacle
    | Lost
    | PutOff(call: Call, at: State, clock: Clock)
    | RefusedBy(call: Call, at: State, clock: Clock)
    | Unplannable(raw: seq<seq<RawRow>>, index: map<Key, Row>, revision: nat)
    | NotReserved(at: State, revision: nat)
    | Erasing(at: State)
    | NotNext(at: State)
    | NotForThis
    | Over

  predicate IsMarked(r: Receipt, k: nat) {
    k in r.marks && r.marks[k].Marked?
  }

  /** Every category that has rows is marked as written. */
  predicate AllMarked(r: Receipt) {
    r.plan.Some? && forall k: nat :: k < CATEGORY_COUNT && RowsOf(r.plan.value.rows, k) != {} ==> IsMarked(r, k)
  }

  /** A further category is done, and none is undone. */
  ghost predicate Onwards(r0: Receipt, r: Receipt, k: nat) {
    && (r.plan.Some? && RowsOf(r.plan.value.rows, k) != {} ==> IsMarked(r, k))
    && forall j: nat :: IsMarked(r0, j) ==> IsMarked(r, j)
  }

  /** The delivery is the writer, and the coordinator has accepted its plan. */
  predicate WriterPlanned(w: World, id: string) {
    IsWriter(w, id) && w.writer.value.planned
  }

  method SomeDays(days: set<Day>) returns (listed: seq<Day>)
    ensures DaySetOf(listed) == days
  {
    listed := [];
    var rest := days;
    while rest != {}
      invariant rest <= days && DaySetOf(listed) == days - rest
      decreases |rest|
    {
      NonEmptyDays(rest);
      var d :| d in rest;
      assert DaySetOf(listed + [d]) == DaySetOf(listed) + {d};
      listed := listed + [d];
      rest := rest - {d};
    }
  }

  lemma NonEmptyDays(days: set<Day>)
    requires days != {}
    ensures exists d :: d in days
  {
    if forall d :: d !in days {
      assert false;
    }
  }

  class AgentDelivery {
    const id: string
    const payload: string
    const days: seq<Day>
    /** The facts of the message, category by category, before they are priced. */
    const message: seq<seq<RawRow>>
    const createdAt: int
    const expiresAt: int
    /** Whether the retained window is fixed, at these bounds, and no erasure begins. */
    const windowed: bool
    const oldest: Day
    const today: Day

    /** The stored receipt: what survives a crash. */
    var disk: Option<Receipt>
    /** The coordinator's tables and the stored facts, which others change too. */
    var c: State
    var store: Store
    var now: int
    /** The rows of this delivery that were written. */
    var landed: set<Row>
    /** The world around them, in a fixed window. */
    ghost var w: World
    /** How this delivery's reservation left the coordinator, so far. */
    ghost var exits: seq<Exit>
    ghost var reserved: bool
    /** How often a storage write, a request or a reply was lost, or the object crashed. */
    ghost var mishaps: nat

    ghost predicate Exited()
      reads this
    {
      exits != [] && exits[0].Completed?
    }

    /** What a stored receipt says about the coordinator and the written rows. */
    ghost predicate Backed(r: Receipt)
      reads this
    {
      && (r.plan.None? ==> landed == {} && r.marks == map[] && r.planned.None?)
      && (r.plan.Some? ==> IsPlan(r.plan.value) && LiveCells(r.plan.value.rows) == FactCells(message) && r.revision.Some?)
      && (r.plan.Some? ==> forall k :: IsMarked(r, k) ==> RowsOf(r.plan.value.rows, k) <= landed)
      && (r.planned.Some? ==> r.plan.Some? && r.planned.value == r.plan.value.Days())
      && (match r.phase
          case Registered =>
            exits == [] && (r.revision.Some? ==> id in c.active && c.active[id].sequence == r.revision.value)
          case Committing =>
            && r.planned.Some? && r.revision.Some? && AllMarked(r) && reserved
            && (id in c.active ==> c.active[id].days == r.plan.value.Days())
            && (id !in c.active ==> exits == [Completed(r.plan.value.rows)])
          case Complete => id !in c.active && r.plan.Some? && exits == [Completed(r.plan.value.rows)]
          case Expired => now >= expiresAt && !Exited())
    }

    /** What the world says about this delivery, if this is its receipt. */
    ghost predicate Tracked(d: Option<Receipt>)
      reads this
    {
      && (IsWriter(w, id) <==> id in c.active && d.Some? && d.value.plan.Some?)
      && (IsWriter(w, id) ==> w.writer.value.rows == d.value.plan.value.rows && w.writer.value.landed == landed)
      && (IsWriter(w, id) && d.value.phase.Committing? ==> w.writer.value.planned)
    }

    ghost predicate InWorld()
      reads this
    {
      Reachable(w) && w.c == c && w.store == store && w.oldest == oldest && w.today == today
    }

    ghost predicate Valid()
      reads this
    {
      && ReachableState(c) && |message| == CATEGORY_COUNT
      && (id in c.active ==> c.active[id].payload == payload && exits == [] && reserved)
      && |exits| <= 1 && (exits != [] ==> reserved) && (landed != {} ==> reserved)
      && (reserved && id !in c.active ==> exits != [])
      && (Exited() ==> exits[0].rows <= landed)
      && StoredOrLater(store, landed)
      && (disk.None? ==> id !in c.active && (reserved ==> now >= expiresAt))
      && (disk.Some? ==> Backed(disk.value))
      && (windowed ==> InWorld() && Tracked(disk))
    }

    /** Nothing that happened is undone. */
    twostate predicate Grew()
      reads this
    {
      && old(exits) <= exits && old(landed) <= landed && old(now) <= now && (old(reserved) ==> reserved)
      && StoreGrew(old(store), store) && old(mishaps) <= mishaps
    }

    /** The reservation, the permit and an accepted plan are still there. */
    twostate predicate Held()
      reads this
    {
      && SameReservation(old(c), c, id)
      && (HoldsPermit(old(c), id) ==> HoldsPermit(c, id))
      && (old(c).erasureStartedAt.Some? ==> c.erasureStartedAt.Some?)
      && (windowed && WriterPlanned(old(w), id) ==> WriterPlanned(w, id))
    }

    constructor (
      id: string, payload: string, days: seq<Day>, message: seq<seq<RawRow>>, createdAt: int, expiresAt: int,
      windowed: bool, oldest: Day, today: Day, c: State, store: Store, now: int, ghost w: World)
      requires ReachableState(c) && id !in c.active && |message| == CATEGORY_COUNT
      requires windowed ==> Reachable(w) && w.c == c && w.store == store && w.oldest == oldest && w.today == today
      ensures Valid() && exits == [] && !reserved && disk.None? && this.windowed == windowed
    {
      this.id, this.payload, this.days, this.message := id, payload, days, message;
      this.createdAt, this.expiresAt := createdAt, expiresAt;
      this.windowed, this.oldest, this.today := windowed, oldest, today;
      this.c, this.store, this.now, this.w := c, store, now, w;
      disk, landed, exits, reserved, mishaps := None, {}, [], false, 0;
      new;
      if windowed {
        ReachableWorldInv(w);
      }
    }

    /**
     * Whatever crashed and whatever was retried: a reservation is either still active or has left
     * exactly once; it left by completing only after every row of its plan was written, and those
     * rows are still stored unless a later revision replaced them; and a receipt that says complete
     * has no reservation.
     */
    lemma LeavesExactlyOnce()
      requires Valid()
      ensures |exits| <= 1 && (reserved ==> (id in c.active <==> exits == []))
      ensures forall e :: e in exits && e.Completed? ==> e.rows <= landed && StoredOrLater(store, e.rows)
      ensures disk.Some? && disk.value.phase.Complete? ==> id !in c.active && |exits| == 1 && exits[0].Completed?
      ensures disk.Some? && disk.value.phase.Committing? && id !in c.active ==> |exits| == 1 && exits[0].Completed?
    {}

    // ---- pauses, storage and calls ----

    /** Time passes and others act; this delivery's reservation and plan are theirs to leave. */
    method Pause()
      requires Valid()
      modifies `c, `store, `now, `w
      ensures Valid() && now >= old(now) && StoreGrew(old(store), store) && Held()
      ensures windowed ==> StaysFor(old(w), w, id)
      ensures windowed ==> exists run :: ForeignPath(old(w), run, w, id)
      ensures !windowed ==> exists calls :: OtherCalls(calls, id) && c == Continue(old(c), calls)
    {
      assert c == Continue(c, []) && OtherCalls([], id);
      assert ForeignPath(w, [], w, id);
    }

    /** The instant of a call. */
    method AnyClock() returns (clock: Clock)
      ensures windowed ==> clock.oldest == oldest && clock.today == today
    {
      clock := *;
      if windowed {
        clock := Clock(clock.now, oldest, today);
      }
    }

    /** Counts a mishap. */
    ghost method Note(alive: bool)
      modifies `mishaps
      ensures mishaps == if alive then old(mishaps) else old(mishaps) + 1
    {
      mishaps := if alive then mishaps else mishaps + 1;
    }

    /** One storage write: it may be lost in a crash, or the crash may come right after it. */
    method Put(r: Receipt) returns (alive: bool)
      requires Valid() && disk.Some? && Backed(r) && (windowed ==> Tracked(Some(r)))
      modifies `disk, `c, `store, `now, `w, `mishaps
      ensures Valid() && Grew() && Held()
      ensures disk == old(disk) || disk == Some(r)
      ensures alive ==> disk == Some(r)
      ensures mishaps == if alive then old(mishaps) else old(mishaps) + 1
    {
      var written: bool := *;
      alive := false;
      if written {
        disk := Some(r);
        alive := *;
      }
      Note(alive);
      Pause();
    }

    /** Storing the plan makes this delivery the writer. */
    method PutPlan(r: Receipt, ghost live: set<Row>) returns (alive: bool)
      requires Valid() && disk.Some? && disk.value.plan.None? && r.plan.Some? && Backed(r) && r.phase.Registered?
      requires windowed ==> Enabled(w, Prepare(id, live)) && r.plan.value.rows == Prepared(live, store.index)
      modifies `disk, `c, `store, `now, `w, `mishaps
      ensures Valid() && Grew() && Held()
      ensures alive ==> disk == Some(r)
      ensures mishaps == if alive then old(mishaps) else old(mishaps) + 1
    {
      var written: bool := *;
      alive := false;
      if written {
        disk := Some(r);
        if windowed {
          ReachableNext(w, Prepare(id, live));
          w := Next(w, Prepare(id, live));
        }
        alive := *;
      }
      Note(alive);
      Pause();
    }

    /** Deletes the receipt, unless a crash comes first. */
    method Clear()
      requires Valid() && id !in c.active && (reserved ==> now >= expiresAt)
      modifies `disk, `mishaps
      ensures Valid() && (disk == old(disk) || disk.None?)
      ensures mishaps == if disk.None? then old(mishaps) else old(mishaps) + 1
    {
      var cleared: bool := *;
      if cleared {
        disk := None;
      }
      Note(disk.None?);
    }

    /** An allowed call of this delivery, as the world sees it. */
    ghost method Follow(call: Call, clock: Clock, out: Outcome)
      requires windowed ==> InWorld() && Enabled(w, Serve(call, clock)) && Step(c, call, clock) == out
      modifies `w
      ensures !windowed ==> w == old(w)
      ensures windowed ==>
        && Reachable(w) && w.c == out.state && w.store == store && w.oldest == oldest && w.today == today
        && (IsWriter(w, id) <==> IsWriter(old(w), id) && id in out.state.active)
        && (IsWriter(w, id) ==> w.writer == Some(StillWriter(old(w), call, out, id)))
    {
      if windowed {
        OwnCallStays(w, call, clock, id);
        w := AfterServe(w, call, clock);
      }
    }

    function ReserveInputs(): ReserveInput {
      ReserveInput(id, payload, days, createdAt, expiresAt)
    }

    /** The coordinator serves the reserve call. */
    method ReserveNow() returns (reply: Reply, ghost at: Clock)
      requires Valid() && disk.Some? && disk.value.phase.Registered? && disk.value.revision.None?
      modifies `c, `reserved, `w
      ensures Valid() && Grew() && reply == Step(old(c), OnDelivery(DeliveryCall.CallReserve(ReserveInputs())), at).reply
      ensures reply.Reserved? || reply.Existing? ==> id in c.active && c.active[id].sequence == reply.sequence
    {
      var clock := AnyClock();
      at := clock;
      var input := ReserveInput(id, payload, days, createdAt, expiresAt);
      OwnReserve(c, input, clock);
      var out := Reserve(c, input, clock);
      Follow(OnDelivery(DeliveryCall.CallReserve(input)), clock, out);
      c, reply := out.state, out.reply;
      reserved := reserved || id in c.active;
    }

    /** The reserve call. A lost request has no effect; a lost reply comes after the effect. */
    method CallReserve() returns (alive: bool, reply: Reply, ghost at: Clock)
      requires Valid() && disk.Some? && disk.value.phase.Registered? && disk.value.revision.None?
      modifies `c, `store, `now, `reserved, `w, `mishaps
      ensures Valid() && Grew() && disk == old(disk)
      ensures mishaps == if alive then old(mishaps) else old(mishaps) + 1
      ensures alive ==> reply == Step(old(c), OnDelivery(DeliveryCall.CallReserve(ReserveInputs())), at).reply
      ensures alive && (reply.Reserved? || reply.Existing?) ==> id in c.active && c.active[id].sequence == reply.sequence
    {
      var sent: bool := *;
      reply, alive, at := Nothing, false, Clock(now, oldest, today);
      if sent {
        reply, at := ReserveNow();
        alive := *;
      }
      Note(alive);
      Pause();
    }

    /** A call that plans exactly the days and links of the plan. */
    predicate IsPlanCall(call: Call, plan: Plan) {
      && call.OnDelivery? && call.delivery.CallPlanWrite? && call.delivery.id == id && call.delivery.payload == payload
      && DaySetOf(call.delivery.days) == plan.Days() && call.delivery.moves == plan.moves
    }

    /** The coordinator serves the call that plans the days and links of the stored rows, and nothing else. */
    method PlanNow(plan: Plan) returns (reply: Reply, ghost call: Call, ghost at: Clock)
      requires Valid() && id in c.active && disk.Some? && disk.value.phase.Registered? && disk.value.plan == Some(plan)
      modifies `c, `w
      ensures Valid() && Grew() && id in c.active && c.active[id].sequence == old(c).active[id].sequence
      ensures IsPlanCall(call, plan) && reply == Step(old(c), call, at).reply && (reply.Refused? || reply.DaysPlanned?)
      ensures reply.DaysPlanned? ==> c.active[id].days == plan.Days() && (windowed ==> WriterPlanned(w, id))
    {
      var clock := AnyClock();
      var listed := SomeDays(plan.Days());
      at, call := clock, OnDelivery(DeliveryCall.CallPlanWrite(id, payload, listed, plan.moves));
      OwnPlan(c, id, payload, listed, plan.moves, clock);
      var out := PlanWrite(c, id, payload, listed, plan.moves, clock);
      Follow(call, clock, out);
      c, reply := out.state, out.reply;
    }

    method CallPlanWrite(plan: Plan) returns (alive: bool, reply: Reply, ghost call: Call, ghost at: Clock)
      requires Valid() && id in c.active && disk.Some? && disk.value.phase.Registered? && disk.value.plan == Some(plan)
      modifies `c, `store, `now, `w, `mishaps
      ensures Valid() && Grew() && id in c.active && c.active[id].sequence == old(c).active[id].sequence
      ensures mishaps == if alive then old(mishaps) else old(mishaps) + 1
      ensures alive ==> IsPlanCall(call, plan) && reply == Step(old(c), call, at).reply && (reply.Refused? || reply.DaysPlanned?)
      ensures alive && reply.DaysPlanned? ==> c.active[id].days == plan.Days() && (windowed ==> WriterPlanned(w, id))
    {
      var sent: bool := *;
      reply, alive, at := Nothing, false, Clock(now, oldest, today);
      call := OnDelivery(DeliveryCall.CallAcquireWrite(id, payload));
      if sent {
        reply, call, at := PlanNow(plan);
        alive := *;
      }
      Note(alive);
      Pause();
    }

    /** A committing delivery has landed all its rows. */
    lemma AllLanded(r: Receipt)
      requires Backed(r) && r.phase.Committing?
      ensures r.plan.value.rows <= landed
    {
      forall row | row in r.plan.value.rows ensures row in landed {
        assert row in RowsOf(r.plan.value.rows, row.key.category);
      }
    }

    lemma MayFinish(r: Receipt, clock: Clock)
      requires Valid() && disk == Some(r) && r.phase.Committing? && windowed && SameWindow(clock)
      ensures Enabled(w, Serve(OnDelivery(DeliveryCall.CallFinishDelivery(id, payload, id in c.active, r.planned.value)), clock))
    {
      AllLanded(r);
      ReachableWorldInv(w);
    }

    predicate SameWindow(clock: Clock) {
      clock.oldest == oldest && clock.today == today
    }

    /** The coordinator completes the delivery. It refuses nothing: the reservation's days are the planned ones. */
    method Finish(r: Receipt, hasReservation: bool)
      requires Valid() && disk == Some(r) && r.phase.Committing? && (hasReservation <==> id in c.active)
      modifies `c, `exits, `w
      ensures Valid() && Grew() && id !in c.active && Exited()
    {
      var clock := AnyClock();
      AllLanded(r);
      OwnFinish(c, id, payload, hasReservation, r.planned.value, clock);
      var out := FinishDelivery(c, id, payload, hasReservation, r.planned.value, clock);
      assert !out.reply.Refused?;
      if windowed {
        MayFinish(r, clock);
      }
      Follow(OnDelivery(DeliveryCall.CallFinishDelivery(id, payload, hasReservation, r.planned.value)), clock, out);
      c := out.state;
      if hasReservation {
        exits := exits + [Completed(r.plan.value.rows)];
      }
    }

    method CallFinishDelivery(r: Receipt, hasReservation: bool) returns (alive: bool)
      requires Valid() && disk == Some(r) && r.phase.Committing? && (hasReservation <==> id in c.active)
      modifies `c, `store, `now, `exits, `w, `mishaps
      ensures Valid() && Grew() && disk == old(disk)
      ensures mishaps == if alive then old(mishaps) else old(mishaps) + 1
      ensures alive ==> id !in c.active && Exited()
    {
      var sent: bool := *;
      alive := false;
      if sent {
        Finish(r, hasReservation);
        alive := *;
      }
      Note(alive);
      Pause();
    }

    /** The coordinator expires the delivery: every retained day of the reservation is dirty and incomplete. */
    method ExpireNow() returns (reply: Reply, ghost at: Clock)
      requires Valid() && id in c.active && disk.Some? && disk.value.phase.Expired?
      modifies `c, `exits, `w
      ensures Valid() && Grew() && reply == Step(old(c), OnDelivery(DeliveryCall.CallExpire(id, payload)), at).reply
      ensures (reply.Refused? <==> at.now < old(c).active[id].expiresAt) && (reply.Refused? <==> id in c.active)
      ensures if id in c.active then exits == old(exits) && c == old(c) else exits == [ExpiredAt(old(c).active[id].days)]
    {
      var clock := AnyClock();
      at := clock;
      OwnExpire(c, id, payload, clock);
      var out := Expire(c, id, payload, clock);
      Follow(OnDelivery(DeliveryCall.CallExpire(id, payload)), clock, out);
      if !out.reply.Refused? {
        exits := exits + [ExpiredAt(c.active[id].days)];
      }
      c, reply := out.state, out.reply;
    }

    method CallExpire() returns (alive: bool, reply: Reply, ghost at: Clock)
      requires Valid() && id in c.active && disk.Some? && disk.value.phase.Expired?
      modifies `c, `store, `now, `exits, `w, `mishaps
      ensures Valid() && Grew() && disk == old(disk)
      ensures mishaps == if alive then old(mishaps) else old(mishaps) + 1
      ensures alive ==> reply == Step(old(c), OnDelivery(DeliveryCall.CallExpire(id, payload)), at).reply
      ensures alive ==> (reply.Refused? <==> id in c.active)
      ensures if id in c.active then exits == old(exits) else exits == [ExpiredAt(old(c).active[id].days)]
    {
      var sent: bool := *;
      reply, alive, at := Nothing, false, Clock(now, oldest, today);
      if sent {
        reply, at := ExpireNow();
        alive := *;
      }
      Note(alive);
      Pause();
    }

    // ---- writing one category ----

    /** The receipt index confirms a category only when all its rows are there. */
    method CategoryIsPresent(rows: set<Row>) returns (present: bool)
      requires Valid()
      modifies `c, `store, `now, `w
      ensures Valid() && Grew() && Held()
      ensures present ==> rows <= landed
    {
      present := *;
      present := present && rows <= landed;
      Pause();
    }

    /** One row of the plan lands. */
    method LandRow(row: Row)
      requires Valid() && disk.Some? && disk.value.plan.Some? && row in disk.value.plan.value.rows && reserved
      requires windowed ==> WriterPlanned(w, id)
      modifies `store, `landed, `w
      ensures Valid() && Grew() && landed == old(landed) + {row} && (windowed ==> WriterPlanned(w, id))
    {
      InsertGrows(store, row);
      store := Insert(store, row);
      landed := landed + {row};
      if windowed {
        ReachableNext(w, Land(row));
        w := Next(w, Land(row));
      }
    }

    method LandRows(rows: set<Row>)
      requires Valid() && disk.Some? && disk.value.plan.Some? && rows <= disk.value.plan.value.rows && reserved
      requires windowed ==> WriterPlanned(w, id)
      modifies `store, `landed, `w
      ensures Valid() && Grew() && rows <= landed && (windowed ==> WriterPlanned(w, id))
    {
      var rest := rows;
      while rest != {}
        invariant Valid() && Grew() && rest <= rows && rows - rest <= landed && (windowed ==> WriterPlanned(w, id))
        decreases |rest|
      {
        var row :| row in rest;
        LandRow(row);
        rest := rest - {row};
      }
    }

    /** Any of the rows may land although the call fails; a success means all have. */
    method WriteCategory(rows: set<Row>) returns (alive: bool)
      requires Valid() && disk.Some? && disk.value.plan.Some? && rows <= disk.value.plan.value.rows && id in c.active
      requires windowed ==> WriterPlanned(w, id)
      modifies `c, `store, `now, `landed, `w, `mishaps
      ensures Valid() && Grew() && Held()
      ensures alive ==> rows <= landed
      ensures mishaps == if alive then old(mishaps) else old(mishaps) + 1
    {
      var some: set<Row> := *;
      alive := *;
      LandRows(if alive then rows else some * rows);
      Note(alive);
      Pause();
    }

    // ---- the operations ----

    /** The obstacle is a real one: what it says happened, or was answered, since the operation began. */
    ghost predicate Stops(why: Obstacle, before: State, lost: nat)
      reads this
    {
      match why
      case NoObstacle => false
      case Lost => mishaps > lost
      case PutOff(call, at, clock) =>
        && AskedSince(call, before, at)
        && (Step(at, call, clock).reply == Nothing || Step(at, call, clock).reply == Permit(false))
      case RefusedBy(call, at, clock) => AskedSince(call, before, at) && Step(at, call, clock).reply.Refused?
      case Unplannable(raw, index, revision) =>
        && |raw| <= |message| && AllPriced(message[..|raw|], raw) && CannotBePlanned(raw, index, revision)
        && id in before.active && before.active[id].sequence == revision
      case NotReserved(at, revision) =>
        SameReservation(before, at, id) && !(id in at.active && at.active[id] == OwnReservation(revision))
      case Erasing(at) => at.erasureStartedAt.Some? && at == c
      case NotNext(at) => !HoldsPermit(at, id) && at == c
      case NotForThis => true
      case Over => now >= expiresAt || (disk.Some? && disk.value.phase.Expired?)
    }

    /** One of the calls this delivery makes, and the coordinator's tables at some moment since. */
    ghost predicate AskedSince(call: Call, before: State, at: State)
      reads this
    {
      && (|| call == OnDelivery(DeliveryCall.CallReserve(ReserveInputs()))
          || call == OnDelivery(DeliveryCall.CallAcquireWrite(id, payload))
          || call == OnDelivery(DeliveryCall.CallExpire(id, payload))
          || (disk.Some? && disk.value.plan.Some? && IsPlanCall(call, disk.value.plan.value)))
      && SameReservation(before, at, id) && (HoldsPermit(before, id) ==> HoldsPermit(at, id))
    }

    function OwnReservation(revision: nat): Reservation {
      Reservation(payload, revision, createdAt, expiresAt, DaySetOf(days))
    }

    /** Registers the delivery with the coordinator, or finds that it already is. */
    method Register() returns (sequence: Option<nat>, ghost why: Obstacle)
      requires Valid()
      modifies this
      ensures Valid() && Grew()
      ensures sequence.Some? ==> disk.Some? && disk.value.revision == sequence
      ensures sequence.Some? <==> why.NoObstacle?
      ensures !why.NoObstacle? ==> Stops(why, old(c), old(mishaps)) && !why.NotForThis?
      ensures why.Over? ==> old(now) >= expiresAt
      ensures old(disk).Some? && disk.None? ==> c.erasureStartedAt.Some? && id !in c.active && !reserved
    {
      if expiresAt <= now {
        return None, Over;
      }
      var r: Receipt;
      if disk.Some? {
        r := disk.value;
        if r.revision.Some? {
          Pause();
          return if c.erasureStartedAt.Some? then None else r.revision, if c.erasureStartedAt.Some? then Erasing(c) else NoObstacle;
        }
      } else {
        r := Receipt(None, None, None, map[], Registered);
        disk := Some(r);
      }
      Pause();
      sequence, why := ReserveFor(r);
    }

    /** Reserves and stores the sequence. After an error, however it came about, the receipt may be discarded. */
    method ReserveFor(r: Receipt) returns (sequence: Option<nat>, ghost why: Obstacle)
      requires Valid() && disk == Some(r) && r.phase.Registered? && r.revision.None?
      modifies this
      ensures Valid() && Grew()
      ensures sequence.Some? ==> disk.Some? && disk.value.revision == sequence
      ensures sequence.Some? <==> why.NoObstacle?
      ensures !why.NoObstacle? ==> Stops(why, old(c), old(mishaps)) && (why.Lost? || why.RefusedBy? || why.PutOff?)
      ensures disk.None? ==> c.erasureStartedAt.Some? && id !in c.active && !reserved
    {
      ghost var call := OnDelivery(DeliveryCall.CallReserve(ReserveInputs()));
      ghost var at;
      var alive, reply;
      alive, reply, at := CallReserve();
      why := if !alive then Lost else if reply.Refused? then RefusedBy(call, old(c), at) else PutOff(call, old(c), at);
      if !alive || reply.Refused? {
        var crashed: bool := *;
        if !crashed {
          DiscardUnderErasure();
        }
        return None, why;
      }
      if !(reply.Reserved? || reply.Existing?) {
        ReserveReplies(old(c), at);
        return None, why;
      }
      alive := Put(r.(revision := Some(reply.sequence)));
      sequence, why := if alive then Some(reply.sequence) else None, if alive then NoObstacle else Lost;
    }

    lemma ReserveReplies(before: State, clock: Clock)
      ensures
        var reply := Step(before, OnDelivery(DeliveryCall.CallReserve(ReserveInputs())), clock).reply;
        reply.Refused? || reply.Reserved? || reply.Existing? || reply == Nothing
    {}

    /** After a failed registration under erasure the receipt is cleared, once no reservation is left. */
    method DiscardUnderErasure()
      requires Valid() && disk.Some? && disk.value.phase.Registered?
      modifies `c, `store, `now, `disk, `w, `mishaps
      ensures Valid() && Grew()
      ensures disk == old(disk) || (disk.None? && c.erasureStartedAt.Some? && id !in c.active && !reserved)
      ensures old(c).erasureStartedAt.Some? && id !in old(c).active ==> disk.None? || mishaps > old(mishaps)
    {
      Pause();
      if c.erasureStartedAt.None? {
        return;
      }
      Pause();
      if id in c.active {
        return;
      }
      Pause();
      Clear();
    }

    /** Completes or confirms the completion, then stores that the delivery is complete; only a mishap prevents it. */
    method FinishCommit(r: Receipt, hasReservation: bool) returns (alive: bool)
      requires Valid() && disk == Some(r) && r.phase.Committing? && (hasReservation <==> id in c.active)
      modifies this
      ensures Valid() && Grew() && (disk == Some(r) || disk == Some(r.(phase := Complete)))
      ensures if alive then disk == Some(r.(phase := Complete)) && id !in c.active else mishaps > old(mishaps)
    {
      alive := CallFinishDelivery(r, hasReservation);
      if !alive {
        return;
      }
      alive := Put(r.(phase := Complete));
    }

    /** Prices the delivery and prepares its rows, or keeps those that an earlier try stored. */
    method StoreRows(r0: Receipt) returns (alive: bool, r: Receipt, ghost why: Obstacle)
      requires Valid() && disk == Some(r0) && r0.phase.Registered? && r0.revision.Some? && HoldsPermit(c, id)
      modifies `disk, `c, `store, `now, `w, `mishaps
      ensures Valid() && Grew() && Held()
      ensures alive ==> disk == Some(r) && r.plan.Some? && r == r0.(plan := r.plan)
      ensures alive <==> why.NoObstacle?
      ensures !alive ==> Stops(why, old(c), old(mishaps)) && (why.Lost? || why.Unplannable?)
      ensures why.Unplannable? ==> why.index == old(store).index && why.revision == r0.revision.value
      ensures alive && r0.plan.None? ==> exists raw ::
        AllPriced(message, raw) && r.plan.value.rows == Prepared(PricedRows(raw, r0.revision.value), old(store).index)
    {
      alive, r, why := true, r0, NoObstacle;
      if r.plan.Some? {
        return;
      }
      NoWriterYet();
      ghost var raw;
      var priced;
      var index := store.index;
      priced, raw := PriceAndPrepare(message, r.revision.value, index);
      Pause();
      if priced.None? {
        return false, r, Unplannable(raw, index, r.revision.value);
      }
      r := r.(plan := priced);
      PreparedCoversFacts(message, raw, r.revision.value, index);
      alive := PutPlan(r, PricedRows(raw, r.revision.value));
      why := if alive then NoObstacle else Lost;
    }

    /** The delivery that holds the permit is the writer, or there is none. */
    lemma NoWriterYet()
      requires Valid() && HoldsPermit(c, id) && disk.Some? && disk.value.plan.None?
      ensures windowed ==> w.writer.None?
    {
      if windowed && w.writer.Some? {
        ReachableWorldInv(w);
        OnlyWriter(w, id);
      }
    }

    /** Stores the rows, then the days they touch. */
    method StorePlan(r0: Receipt) returns (alive: bool, r: Receipt, ghost why: Obstacle)
      requires Valid() && disk == Some(r0) && r0.phase.Registered? && r0.revision.Some? && HoldsPermit(c, id)
      modifies `disk, `c, `store, `now, `w, `mishaps
      ensures Valid() && Grew() && Held()
      ensures alive ==> disk == Some(r) && r.planned.Some? && r == r0.(plan := r.plan, planned := r.planned)
      ensures alive <==> why.NoObstacle?
      ensures !alive ==> Stops(why, old(c), old(mishaps)) && (why.Lost? || why.Unplannable?)
    {
      alive, r, why := StoreRows(r0);
      if alive && r.planned.None? {
        r := r.(planned := Some(r.plan.value.Days()));
        alive := Put(r);
        why := if alive then NoObstacle else Lost;
      }
    }

    /** Stores that a write is about to be tried, then tries it. */
    method AttemptWrite(r0: Receipt, k: nat) returns (alive: bool, r: Receipt)
      requires Valid() && disk == Some(r0) && r0.phase.Registered? && r0.revision.Some? && r0.plan.Some?
      requires windowed ==> WriterPlanned(w, id)
      modifies `disk, `c, `store, `now, `landed, `w, `mishaps
      ensures Valid() && Grew() && Held()
      ensures r == r0.(marks := r0.marks[k := Attempting])
      ensures if alive then disk == Some(r) && RowsOf(r.plan.value.rows, k) <= landed else mishaps > old(mishaps)
    {
      r := r0.(marks := r0.marks[k := Attempting]);
      alive := Put(r);
      if alive {
        alive := WriteCategory(RowsOf(r.plan.value.rows, k));
      }
    }

    /** Writes one category; an ambiguous earlier attempt is first looked up. */
    method CommitCategory(r0: Receipt, k: nat) returns (alive: bool, r: Receipt)
      requires Valid() && disk == Some(r0) && r0.phase.Registered? && r0.revision.Some? && r0.plan.Some?
      requires windowed ==> WriterPlanned(w, id)
      modifies `disk, `c, `store, `now, `landed, `w, `mishaps
      ensures Valid() && Grew() && Held()
      ensures alive ==> disk == Some(r) && r == r0.(marks := r0.marks[k := Marked]) && RowsOf(r.plan.value.rows, k) <= landed
      ensures !alive ==> mishaps > old(mishaps)
    {
      r := r0;
      var present := false;
      if k in r.marks && r.marks[k].Attempting? {
        present := CategoryIsPresent(RowsOf(r.plan.value.rows, k));
      }
      if !present {
        alive, r := AttemptWrite(r, k);
        if !alive {
          return;
        }
      }
      r := r0.(marks := r0.marks[k := Marked]);
      alive := Put(r);
    }

    /** Writes one category unless it is empty or done. */
    method CommitIfNeeded(r0: Receipt, k: nat) returns (alive: bool, r: Receipt)
      requires Valid() && disk == Some(r0) && r0.phase.Registered? && r0.revision.Some? && r0.plan.Some?
      requires windowed ==> WriterPlanned(w, id)
      modifies `disk, `c, `store, `now, `landed, `w, `mishaps
      ensures Valid() && Grew() && Held()
      ensures if alive then disk == Some(r) && r == r0.(marks := r.marks) && Onwards(r0, r, k) else mishaps > old(mishaps)
    {
      alive, r := true, r0;
      if RowsOf(r.plan.value.rows, k) != {} && !IsMarked(r, k) {
        alive, r := CommitCategory(r, k);
      }
    }

    /** The categories below `k` that have rows are marked as written. */
    ghost predicate MarkedBelow(r: Receipt, k: nat) {
      r.plan.Some? && forall j: nat :: j < k && RowsOf(r.plan.value.rows, j) != {} ==> IsMarked(r, j)
    }

    /** Writes the categories that are not done. */
    method WriteCategories(r0: Receipt) returns (alive: bool, r: Receipt)
      requires Valid() && disk == Some(r0) && r0.phase.Registered? && r0.planned.Some? && r0.revision.Some?
      requires windowed ==> WriterPlanned(w, id)
      modifies `disk, `c, `store, `now, `landed, `w, `mishaps
      ensures Valid() && Grew() && SameReservation(old(c), c, id) && (windowed ==> WriterPlanned(w, id))
      ensures if alive then disk == Some(r) && AllMarked(r) && r == r0.(marks := r.marks) else mishaps > old(mishaps)
    {
      alive, r := true, r0;
      var k: nat := 0;
      while alive && k < CATEGORY_COUNT
        invariant k <= CATEGORY_COUNT && Valid() && SameReservation(old(c), c, id) && (windowed ==> WriterPlanned(w, id))
        invariant exits == old(exits) && reserved == old(reserved) && old(landed) <= landed
        invariant old(now) <= now && old(mishaps) <= mishaps && StoreGrew(old(store), store)
        invariant if alive then disk == Some(r) && r == r0.(marks := r.marks) && MarkedBelow(r, k) else mishaps > old(mishaps)
      {
        label Before:
        alive, r := CommitIfNeeded(r, k);
        assert StoreGrew(old@Before(store), store) && SameReservation(old@Before(c), c, id);
        k := k + 1;
      }
    }

    /** A lost reserve reply is repaired from the coordinator's own reservation. */
    method RepairRevision(r0: Receipt, revision: nat) returns (alive: bool, r: Receipt, ghost why: Obstacle)
      requires Valid() && disk == Some(r0) && r0.revision.None? && r0.phase.Registered?
      modifies `disk, `c, `store, `now, `w, `mishaps
      ensures Valid() && Grew() && Held()
      ensures alive ==> disk == Some(r) && r == r0.(revision := Some(revision))
      ensures alive <==> why.NoObstacle?
      ensures !alive ==> Stops(why, old(c), old(mishaps)) && (why.Lost? || why.NotReserved?)
    {
      Pause();
      alive, r, why := false, r0, NotReserved(c, revision);
      if id in c.active {
        var reservation := c.active[id];
        if reservation.payload == payload && reservation.sequence == revision && reservation.days == DaySetOf(days)
           && reservation.createdAt == createdAt && reservation.expiresAt == expiresAt {
          r := r0.(revision := Some(revision));
          alive := Put(r);
          why := if alive then NoObstacle else Lost;
        }
      }
    }

    /** The delivery is complete: its plan has a live row for every fact of its message, and all its rows have landed. */
    ghost predicate Written()
      reads this
    {
      && disk.Some? && disk.value.phase.Complete? && disk.value.plan.Some? && id !in c.active
      && LiveCells(disk.value.plan.value.rows) == FactCells(message) && disk.value.plan.value.rows <= landed
      && exits == [Completed(disk.value.plan.value.rows)]
    }

    /** The message is about this receipt, as it is stored or as it can be repaired. */
    predicate IsFor(d: Option<Receipt>, revision: nat) {
      d.Some? && (d.value.revision == Some(revision) || (d.value.revision.None? && d.value.phase.Registered?))
    }

    /**
     * One queue message: drives the delivery as far as it gets. It finishes unless there is an obstacle,
     * and it waits only for a delivery that may write before it.
     */
    method Process(revision: nat) returns (result: ProcessResult, ghost why: Obstacle)
      requires Valid()
      modifies this
      ensures Valid() && Grew()
      ensures result.Finished? ==> Written()
      ensures result.Finished? <==> why.NoObstacle?
      ensures result.Waiting? <==> why.PutOff?
      ensures !why.NoObstacle? ==> Stops(why, old(c), old(mishaps))
      ensures why.PutOff? ==> !HoldsPermit(old(c), id)
      ensures why.NotForThis? ==> !IsFor(old(disk), revision)
    {
      if disk.None? {
        return Failed, NotForThis;
      }
      var r := disk.value;
      if r.revision.None? && r.phase.Registered? {
        var repaired: bool;
        repaired, r, why := RepairRevision(r, revision);
        if !repaired {
          return Failed, why;
        }
      }
      if r.revision != Some(revision) {
        return Failed, NotForThis;
      }
      if r.phase.Complete? {
        return ProcessResult.Finished, NoObstacle;
      }
      if expiresAt <= now || r.phase.Expired? {
        return Failed, Over;
      }
      result, why := ProcessInner(r);
    }

    /** What the coordinator answers the owner of a reservation that asks for the write. */
    lemma WriteReplies(at: State, clock: Clock)
      requires id in at.active
      ensures
        var reply := Step(at, OnDelivery(DeliveryCall.CallAcquireWrite(id, payload)), clock).reply;
        reply.Refused? || reply == Permit(HoldsPermit(at, id))
    {}

    /** Asks for the write, unless no reservation is left. */
    method AskToWrite() returns (reply: Reply, ghost why: Obstacle)
      requires Valid() && disk.Some?
      modifies `c, `store, `now, `w
      ensures Valid() && Grew() && Held()
      ensures reply.Permit? || reply.Refused?
      ensures reply == Permit(true) ==> (id in c.active ==> HoldsPermit(c, id))
      ensures (reply == Permit(true) <==> why.NoObstacle?) && (reply == Permit(false) <==> why.PutOff?)
      ensures !why.NoObstacle? ==> Stops(why, old(c), old(mishaps)) && (why.RefusedBy? || why.PutOff?)
      ensures why.PutOff? ==> !HoldsPermit(old(c), id)
    {
      Pause();
      reply, why := Permit(true), NoObstacle;
      if id in c.active {
        var clock := AnyClock();
        ghost var call := OnDelivery(DeliveryCall.CallAcquireWrite(id, payload));
        WriteReplies(c, clock);
        reply := AcquireWrite(c, id, payload, clock).reply;
        why :=
          if reply == Permit(true) then NoObstacle else if reply.Refused? then RefusedBy(call, c, clock)
          else PutOff(call, c, clock);
      }
    }

    method ProcessInner(r0: Receipt) returns (result: ProcessResult, ghost why: Obstacle)
      requires Valid() && disk == Some(r0) && r0.revision.Some? && (r0.phase.Registered? || r0.phase.Committing?)
      modifies this
      ensures Valid() && Grew()
      ensures result.Finished? ==> Written()
      ensures result.Finished? <==> why.NoObstacle?
      ensures result.Waiting? <==> why.PutOff?
      ensures !why.NoObstacle? ==> Stops(why, old(c), old(mishaps)) && !why.NotForThis?
      ensures why.PutOff? ==> !HoldsPermit(old(c), id)
    {
      var reply;
      reply, why := AskToWrite();
      if reply != Permit(true) {
        result := if reply.Refused? then Failed else Waiting;
        return;
      }
      result, why := WriteAndFinish(r0);
    }

    /** The holder of the write commits its rows if it has not, and completes. */
    method WriteAndFinish(r0: Receipt) returns (result: ProcessResult, ghost why: Obstacle)
      requires Valid() && disk == Some(r0) && r0.revision.Some? && (r0.phase.Registered? || r0.phase.Committing?)
      requires id in c.active ==> HoldsPermit(c, id)
      modifies this
      ensures Valid() && Grew()
      ensures result.Finished? ==> Written()
      ensures result.Finished? <==> why.NoObstacle?
      ensures !result.Waiting? && !why.PutOff? && !why.NotForThis?
      ensures !why.NoObstacle? ==> Stops(why, old(c), old(mishaps))
    {
      why := NoObstacle;
      var r := r0;
      var alive: bool;
      if r.phase.Registered? {
        // The missing-reservation error cannot happen: a registered receipt with a revision has one.
        assert id in c.active && c.active[id].sequence == r.revision.value;
        alive, r, why := CommitRows(r);
        if !alive {
          return Crashed, why;
        }
      }
      alive := FinishCommit(r, id in c.active);
      result, why := if alive then ProcessResult.Finished else Crashed, if alive then NoObstacle else Lost;
    }

    /** Stores the plan, has it accepted, writes its rows and stores that everything is written. */
    method CommitRows(r0: Receipt) returns (alive: bool, r: Receipt, ghost why: Obstacle)
      requires Valid() && disk == Some(r0) && r0.revision.Some? && r0.phase.Registered? && HoldsPermit(c, id)
      modifies this
      ensures Valid() && Grew()
      ensures alive ==> disk == Some(r) && r.phase.Committing? && r.plan.value.rows <= landed
      ensures alive <==> why.NoObstacle?
      ensures !alive ==> Stops(why, old(c), old(mishaps)) && !why.PutOff? && !why.NotForThis?
    {
      alive, r, why := StorePlan(r0);
      if !alive {
        return;
      }
      alive, r, why := WritePlan(r);
    }

    /** Has the stored plan accepted, writes its rows and stores that everything is written. */
    method WritePlan(r0: Receipt) returns (alive: bool, r: Receipt, ghost why: Obstacle)
      requires Valid() && disk == Some(r0) && r0.revision.Some? && r0.phase.Registered? && r0.planned.Some?
      modifies this
      ensures Valid() && Grew()
      ensures alive ==> disk == Some(r) && r.phase.Committing? && r.plan.value.rows <= landed
      ensures alive <==> why.NoObstacle?
      ensures !alive ==> Stops(why, old(c), old(mishaps)) && (why.Lost? || why.RefusedBy?)
    {
      var reply: Reply;
      ghost var call, at;
      r := r0;
      alive, reply, call, at := CallPlanWrite(r.plan.value);
      if !alive || !reply.DaysPlanned? {
        why := if alive then RefusedBy(call, old(c), at) else Lost;
        alive := false;
        return;
      }
      alive, r := WriteCategories(r);
      if alive {
        r := r.(phase := Committing);
        alive := Put(r);
      }
      if alive {
        AllLanded(r);
      }
      why := if alive then NoObstacle else Lost;
    }

    /**
     * The alarm: expires an unfinished delivery, finishes a committed one, or wakes the queue again. It does
     * so unless there is an obstacle: a receipt past its end is cleared, and before its end the queue is woken
     * for a committed delivery and for the next one to write.
     */
    method Alarm() returns (wake: bool, ghost why: Obstacle)
      requires Valid()
      modifies this
      ensures Valid() && Grew()
      ensures old(disk).None? ==> disk.None? && !wake
      ensures old(disk).Some? && disk.None? ==> id !in c.active && (now >= expiresAt || c.erasureStartedAt.Some?)
      ensures old(disk).Some? && old(disk).value.phase.Committing? && disk.None? ==> Exited()
      ensures old(disk).Some? && old(disk).value.phase.Complete? ==> !wake && ClearedInTime(old(disk), old(mishaps))
      ensures old(now) >= expiresAt && old(disk).Some? ==> !wake && AlarmExpires(old(disk).value)
      ensures old(Unfinished()) && old(now) >= expiresAt ==> (disk.None? <==> why.NoObstacle?)
      ensures old(Unfinished()) && old(now) < expiresAt ==> (wake <==> why.NoObstacle?) && (wake ==> MayWake())
      ensures old(Unfinished()) && !why.NoObstacle? ==> Stops(why, old(c), old(mishaps)) && !why.Over? && !why.NotForThis?
      ensures old(Unfinished()) && why.NotNext? ==> old(now) < expiresAt
    {
      wake, why := false, NoObstacle;
      if disk.None? {
        return;
      }
      var r := disk.value;
      if r.phase.Complete? {
        Pause();
        if now >= expiresAt {
          Clear();
        }
        return;
      }
      if now >= expiresAt {
        if r.phase.Committing? {
          why := FinishExpired(r);
        } else {
          why := ExpireReceipt(r);
        }
        return;
      }
      wake, why := Wake(r);
    }

    ghost predicate Unfinished()
      reads this
    {
      disk.Some? && !disk.value.phase.Complete?
    }

    /** A complete receipt goes at its end, and not before. */
    ghost predicate ClearedInTime(d: Option<Receipt>, lost: nat)
      reads this
    {
      (disk == d || disk.None?) && (disk.None? ==> now >= expiresAt) && (mishaps == lost && disk.Some? ==> now < expiresAt)
    }

    /** The delivery is committed, or the next one to write. */
    ghost predicate MayWake()
      reads this
    {
      disk.Some? && disk.value.revision.Some? && (disk.value.phase.Committing? || HoldsPermit(c, id))
    }

    /** Past its end, a receipt stays, is stored as over, or is cleared. */
    predicate AlarmExpires(r: Receipt)
      reads this
    {
      disk.None? || disk == Some(r) || disk == Some(r.(phase := if r.phase.Registered? then Expired else Complete))
    }

    /** A committed delivery is finished although it is past its end, and then cleared; only a mishap prevents it. */
    method FinishExpired(r: Receipt) returns (ghost why: Obstacle)
      requires Valid() && disk == Some(r) && r.phase.Committing? && now >= expiresAt
      modifies this
      ensures Valid() && Grew() && AlarmExpires(r) && (disk.None? ==> id !in c.active && Exited())
      ensures (disk.None? <==> why.NoObstacle?) && (!why.NoObstacle? ==> why.Lost? && mishaps > old(mishaps))
    {
      Pause();
      var finished := FinishCommit(r, id in c.active);
      if finished {
        Clear();
      }
      why := if disk.None? then NoObstacle else Lost;
    }

    /** Wakes the queue for a committed delivery, or for the one that is next to write. */
    method Wake(r: Receipt) returns (wake: bool, ghost why: Obstacle)
      requires Valid() && disk == Some(r) && (r.phase.Registered? || r.phase.Committing?) && now < expiresAt
      modifies this
      ensures Valid() && Grew()
      ensures disk.None? ==> id !in c.active && c.erasureStartedAt.Some? && r.phase.Registered?
      ensures (wake <==> why.NoObstacle?) && (wake ==> MayWake())
      ensures !why.NoObstacle? ==> Stops(why, old(c), old(mishaps)) && !why.Over? && !why.NotForThis?
    {
      wake, why := true, NoObstacle;
      if r.revision.None? {
        var sequence;
        sequence, why := Register();
        wake := sequence.Some?;
      }
      if wake && !r.phase.Committing? {
        Pause();
        wake := HoldsPermit(c, id);
        why := if wake then NoObstacle else NotNext(c);
      }
    }

    /**
     * The expiry is stored before the coordinator hears of it, and the receipt is cleared only after
     * the reservation is gone.
     */
    method ExpireReceipt(r: Receipt) returns (ghost why: Obstacle)
      requires Valid() && disk == Some(r) && now >= expiresAt && (r.phase.Registered? || r.phase.Expired?)
      modifies this
      ensures Valid() && Grew() && (disk.None? || disk == Some(r) || disk == Some(r.(phase := Expired)))
      ensures disk == Some(r) && r.phase.Registered? ==> (id in c.active <==> old(id in c.active)) && exits == old(exits)
      ensures disk.None? ==> id !in c.active && !Exited()
      ensures exits == old(exits) || (old(id in c.active) && exits == [ExpiredAt(old(c).active[id].days)])
      ensures disk.None? <==> why.NoObstacle?
      ensures !why.NoObstacle? ==> Stops(why, old(c), old(mishaps)) && (why.Lost? || why.RefusedBy?)
    {
      var alive := Put(r.(phase := Expired));
      why := Lost;
      if alive {
        why := WithdrawAndClear();
      }
    }

    method WithdrawAndClear() returns (ghost why: Obstacle)
      requires Valid() && disk.Some? && disk.value.phase.Expired?
      modifies this
      ensures Valid() && Grew() && (disk == old(disk) || (disk.None? && id !in c.active && !Exited()))
      ensures exits == old(exits) || (old(id in c.active) && exits == [ExpiredAt(old(c).active[id].days)])
      ensures disk.None? <==> why.NoObstacle?
      ensures !why.NoObstacle? ==> Stops(why, old(c), old(mishaps)) && (why.Lost? || why.RefusedBy?)
    {
      Pause();
      var gone;
      gone, why := Withdraw();
      Pause();
      if gone {
        Clear();
        why := if disk.None? then NoObstacle else Lost;
      }
    }

    /** Takes the reservation of an expired receipt out of the coordinator, if it is still there. */
    method Withdraw() returns (gone: bool, ghost why: Obstacle)
      requires Valid() && disk.Some? && disk.value.phase.Expired?
      modifies `c, `store, `now, `exits, `w, `mishaps
      ensures Valid() && Grew() && disk == old(disk)
      ensures (gone <==> why.NoObstacle?) && (gone ==> id !in c.active)
      ensures exits == old(exits) || (old(id in c.active) && exits == [ExpiredAt(old(c).active[id].days)])
      ensures !gone ==> (why.Lost? && mishaps > old(mishaps)) || (why.RefusedBy? && Stops(why, old(c), old(mishaps)))
    {
      gone, why := true, NoObstacle;
      if id in c.active {
        var alive, reply;
        ghost var at;
        alive, reply, at := CallExpire();
        gone := alive && !reply.Refused?;
        why := if gone then NoObstacle else if !alive then Lost
          else RefusedBy(OnDelivery(DeliveryCall.CallExpire(id, payload)), old(c), at);
      }
    }
  }
}
