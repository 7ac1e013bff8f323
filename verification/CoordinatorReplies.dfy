/**
 * What the coordinator answers, call by call and over several calls: when it admits a delivery, what
 * a closed gate and a live claim keep others from, what a failed Copy leaves behind and how it is
 * overcome, and how often a job is checked.
 */
module CoordinatorReplies {
  import opened Contract
  import opened CopyPlan
  import opened CoordinatorModel
  import opened CoordinatorInvariants
  import opened CoordinatorSafety
  import opened Publication
  import opened PublicationInvariants
  import opened PublicationCalls
  import opened SnapshotRounds
  import DayGraph

  // ---- admitting deliveries ----

  /** The gate lets deliveries in: it is open, or its drain has outlived its lease. */
  predicate Admits(c: State, now: int) {
    c.phase.Open? || (c.phase.Draining? && (c.gateExpires.Some? ==> c.gateExpires.value <= now))
  }

  /** The days the limit counts once days outside the window are forgotten. */
  function RetainedPending(c: State, clock: Clock): set<Day> {
    (set d | d in c.dirty && clock.Retains(d)) + DeliveryDays(c)
  }

  /** A reservation that may be asked for: a few retained days, for at most four days from a time past. */
  predicate Proper(input: ReserveInput, clock: Clock) {
    && 0 < |input.days| <= MAX_DIRTY_DAYS && (forall d :: d in input.days ==> clock.Retains(d))
    && input.createdAt <= clock.now < input.expiresAt <= input.createdAt + MAX_DELIVERY_RETENTION_MS
  }

  lemma RecoveredGate(c: State, clock: Clock)
    requires GateInv(c) && IdleInv(c)
    ensures RecoverAndPrune(c, clock).Ok?
    ensures
      var c1 := RecoverAndPrune(c, clock).value;
      && (c1.phase.Open? <==> Admits(c, clock.now)) && (c1.phase.Snapshot? <==> c.phase.Snapshot?)
      && c1.active == c.active && c1.lastSequence == c.lastSequence && c1.erasureStartedAt == c.erasureStartedAt
      && (!c.phase.Snapshot? ==> PendingDays(c1) == RetainedPending(c, clock))
  {
    RecoverFrame(c, clock);
    var c1 := RecoverAndPrune(c, clock).value;
    if !c.phase.Snapshot? {
      assert CapturedDays(c) == {} && CapturedDays(c1) == {};
    }
  }

  lemma WithItsDays(c: State, input: ReserveInput)
    requires input.id !in c.active
    ensures PendingDays(InsertReservation(c, input)) == PendingDays(c) + DaySetOf(input.days)
  {
    var c1 := InsertReservation(c, input);
    forall d ensures d in PendingDays(c1) <==> d in PendingDays(c) + DaySetOf(input.days) {
      if d in DeliveryDays(c) {
        var id :| id in c.active && d in c.active[id].days;
        assert id in c1.active && c1.active[id] == c.active[id];
      }
      if d in DaySetOf(input.days) {
        assert input.id in c1.active && d in c1.active[input.id].days;
      }
    }
  }

  lemma AdmittedOn(c: State, input: ReserveInput, clock: Clock)
    requires input.id !in c.active && 0 < |input.days| <= MAX_DIRTY_DAYS
    ensures
      var reply := ReserveOn(c, input, clock).reply;
      && (reply.Reserved? <==>
            && WindowFault(input, clock).None? && c.erasureStartedAt.None? && c.phase.Open?
            && |c.active| < MAX_ACTIVE_DELIVERIES && c.lastSequence < MAX_SAFE_INTEGER
            && |PendingDays(c) + DaySetOf(input.days)| <= MAX_DIRTY_DAYS)
      && (reply.Reserved? ==> reply.sequence == c.lastSequence + 1)
      && (reply.Nothing? <==>
            && WindowFault(input, clock).None? && c.erasureStartedAt.None?
            && !(c.phase.Open? && |c.active| < MAX_ACTIVE_DELIVERIES))
  {
    WithItsDays(c, input);
  }

  lemma ReserveStarts(c: State, input: ReserveInput, clock: Clock)
    requires 0 < |input.days| <= MAX_DIRTY_DAYS && RecoverAndPrune(c, clock).Ok?
    ensures Step(c, OnDelivery(CallReserve(input)), clock) == ReserveOn(RecoverAndPrune(c, clock).value, input, clock)
  {}

  lemma TooFewOrMany(c: State, input: ReserveInput, clock: Clock)
    requires !(0 < |input.days| <= MAX_DIRTY_DAYS)
    ensures Step(c, OnDelivery(CallReserve(input)), clock).reply.Refused?
  {}

  /**
   * When a new delivery is admitted: exactly when it is proper, no erasure began, the gate lets it in,
   * and deliveries, numbers and days are left. If only gate or number of deliveries are in the way it waits.
   */
  lemma AdmittedIff(c: State, input: ReserveInput, clock: Clock)
    requires Inv(c) && input.id !in c.active
    ensures
      var reply := Step(c, OnDelivery(CallReserve(input)), clock).reply;
      && (reply.Reserved? <==>
            && Proper(input, clock) && c.erasureStartedAt.None? && Admits(c, clock.now)
            && |c.active| < MAX_ACTIVE_DELIVERIES && c.lastSequence < MAX_SAFE_INTEGER
            && |RetainedPending(c, clock) + DaySetOf(input.days)| <= MAX_DIRTY_DAYS)
      && (reply.Reserved? ==> reply.sequence == c.lastSequence + 1)
      && (reply.Nothing? <==>
            && Proper(input, clock) && c.erasureStartedAt.None?
            && !(Admits(c, clock.now) && |c.active| < MAX_ACTIVE_DELIVERIES))
  {
    ProperIff(input, clock);
    if 0 < |input.days| <= MAX_DIRTY_DAYS {
      RecoveredGate(c, clock);
      ReserveStarts(c, input, clock);
      AdmittedOn(RecoverAndPrune(c, clock).value, input, clock);
    } else {
      TooFewOrMany(c, input, clock);
    }
  }

  lemma ProperIff(input: ReserveInput, clock: Clock)
    ensures Proper(input, clock) <==> 0 < |input.days| <= MAX_DIRTY_DAYS && WindowFault(input, clock).None?
  {
    assert forall d :: d in input.days <==> d in DaySetOf(input.days);
  }

  /** Asking again is answered with the same sequence exactly when everything is as it was. */
  lemma RepeatedIff(c: State, input: ReserveInput, clock: Clock)
    requires Inv(c) && input.id in c.active && 0 < |input.days| <= MAX_DIRTY_DAYS
    ensures
      var r := c.active[input.id];
      var out := Step(c, OnDelivery(CallReserve(input)), clock);
      && (if r == Reservation(input.payload, r.sequence, input.createdAt, input.expiresAt, DaySetOf(input.days))
          then out.reply == Existing(r.sequence) else out.reply.Refused?)
      && out.state.active == c.active && out.state.lastSequence == c.lastSequence
  {
    RecoveredGate(c, clock);
  }

  // ---- the gate ----

  /** The day tables without the days that left the window. */
  function WithoutOldDays(c: State, clock: Clock): State {
    c.(dirty := (set d | d in c.dirty && clock.Retains(d)),
       incomplete := (set d | d in c.incomplete && clock.Retains(d)),
       links := (set l | l in c.links && clock.Retains(l.a) && clock.Retains(l.b)))
  }

  /** Outside a snapshot, what every call starts from. */
  function StartsFrom(c: State, clock: Clock): State {
    WithoutOldDays(if Admits(c, clock.now) then OpenGate(c) else c, clock)
  }

  lemma PruneOutside(c: State, clock: Clock)
    requires c.captured == map[]
    ensures Prune(c, clock) == WithoutOldDays(c, clock)
  {
    assert CapturedDays(c) == {};
    var c1 := WithoutOldDays(c, clock);
    assert Prune(c, clock).dirty == c1.dirty && Prune(c, clock).incomplete == c1.incomplete;
  }

  lemma RecoverOutside(c: State, now: int)
    requires GateInv(c) && IdleInv(c) && !c.phase.Snapshot?
    ensures RecoverGate(c, now) == Ok(if Admits(c, now) then OpenGate(c) else c)
  {
    assert c.(captured := map[]) == c;
    assert c.phase.Open? ==> OpenGate(c) == c;
  }

  lemma OutsideStartsFrom(c: State, clock: Clock)
    requires GateInv(c) && IdleInv(c) && !c.phase.Snapshot?
    ensures RecoverAndPrune(c, clock) == Ok(StartsFrom(c, clock))
  {
    RecoverOutside(c, clock.now);
    PruneOutside(if Admits(c, clock.now) then OpenGate(c) else c, clock);
  }

  /** The tables once a request has closed the gate. */
  function Closed(c: State, clock: Clock): State {
    WithoutOldDays(c, clock).(phase := Draining, gateExpires := Some(clock.now + SNAPSHOT_LEASE_MS))
  }

  lemma RequestDrains(c: State, clock: Clock)
    requires Inv(c) && c.phase.Open? && c.erasureStartedAt.None? && c.failure.None?
    requires exists d :: d in c.dirty && clock.Retains(d)
    ensures Step(c, OnGate(CallRequestSnapshot), clock) == Outcome(Closed(c, clock), IsDraining(|c.active|))
  {
    OutsideStartsFrom(c, clock);
    var d :| d in c.dirty && clock.Retains(d);
    assert d in StartsFrom(c, clock).dirty;
  }

  /** A request for a snapshot closes the gate: nobody is admitted until its lease is over, and then it lets in again. */
  lemma RequestClosesTheGate(c: State, clock: Clock, input: ReserveInput, later: Clock)
    requires Inv(c) && c.phase.Open? && c.erasureStartedAt.None? && c.failure.None?
    requires (exists d :: d in c.dirty && clock.Retains(d)) && input.id !in c.active
    ensures
      var closed := Step(c, OnGate(CallRequestSnapshot), clock).state;
      && (Step(closed, OnDelivery(CallReserve(input)), later).reply.Reserved? ==> later.now >= clock.now + SNAPSHOT_LEASE_MS)
      && (later.now >= clock.now + SNAPSHOT_LEASE_MS ==> Admits(closed, later.now))
  {
    RequestDrains(c, clock);
    StepKeepsInv(c, OnGate(CallRequestSnapshot), clock);
    AdmittedIff(Closed(c, clock), input, later);
  }

  /** When nothing can be captured, beginning a snapshot opens the gate again. */
  lemma NothingToCaptureReopens(c: State, claim: string, clock: Clock)
    requires Inv(c) && !c.phase.Snapshot? && c.active == map[] && c.erasureStartedAt.None? && c.failure.None?
    requires
      var c1 := WithoutOldDays(c, clock);
      DayGraph.Select(c1.dirty, c1.incomplete, c1.links) == {}
    ensures Step(c, OnGate(CallBeginSnapshot(claim)), clock) ==
      Outcome(OpenGate(WithoutOldDays(c, clock)), Refused(NoCompleteDirtyDays))
  {
    OutsideStartsFrom(c, clock);
    assert OpenGate(StartsFrom(c, clock)) == OpenGate(WithoutOldDays(c, clock));
  }

  /** While deliveries are active, no snapshot begins. */
  lemma DeliveriesComeFirst(c: State, claim: string, clock: Clock)
    requires Inv(c) && c.active != map[] && c.erasureStartedAt.None? && c.failure.None?
    ensures Step(c, OnGate(CallBeginSnapshot(claim)), clock).reply == Nothing
  {
    RecoveredGate(c, clock);
  }

  /** Reading the counters forgets exactly the days that left the window, and opens a gate whose lease is over. */
  lemma CountersForgetOldDays(c: State, clock: Clock)
    requires Inv(c) && !c.phase.Snapshot?
    ensures Step(c, OnGate(CallGetStats), clock).state == StartsFrom(c, clock)
  {
    OutsideStartsFrom(c, clock);
  }

  // ---- deliveries that leave, days that are resolved ----

  lemma ExpiredIff(c: State, id: string, clock: Clock)
    requires id in c.active
    ensures
      var out := Step(c, OnDelivery(CallExpire(id, c.active[id].payload)), clock);
      && (out.reply.Left? <==> clock.now >= c.active[id].expiresAt)
      && (out.reply.Refused? ==> out.state == c) && (out.reply.Left? || out.reply.Refused?)
  {}

  lemma ResolvedIff(c: State, days: seq<Day>, clock: Clock)
    ensures
      var out := Step(c, OnDelivery(CallResolveIncompleteDays(days)), clock);
      && (out.reply.DaysResolved? <==> 0 < |days| <= MAX_DIRTY_DAYS && forall d :: d in days ==> d in c.incomplete)
      && (out.reply.DaysResolved? || (out.reply.Refused? && out.state == c))
  {
    if forall d :: d in days ==> d in c.incomplete {
      assert DaySetOf(days) <= c.incomplete;
    }
    if DaySetOf(days) <= c.incomplete {
      forall d | d in days ensures d in c.incomplete {
        assert d in DaySetOf(days);
      }
    }
  }

  // ---- claims ----

  /** A snapshot is under way, and the claim on it is live until then. */
  predicate ClaimedUntil(c: State, g: int, claim: string, until: int) {
    HoldsClaim(c, g, claim) && c.phase.Snapshot? && c.gateExpires == Some(until)
  }

  lemma ProgressIsRead(c: State, g: int, holder: string, until: int)
    requires ClaimedUntil(c, g, holder, until) && c.progress[g].next <= CopyCount(CountCaptured(c, g))
    ensures ReadProgress(c, g).Ok? && ReadProgress(c, g).value.claim == holder && ReadProgress(c, g).value.claimExpiresAt == until
  {}

  lemma CursorIsInside(c: State, g: int, holder: string, until: int)
    requires Inv(c) && ClaimedUntil(c, g, holder, until)
    ensures c.progress[g].next <= CopyCount(CountCaptured(c, g))
  {}

  lemma ClaimTaken(c: State, g: int, holder: string, until: int, claim: string, clock: Clock)
    requires ClaimedUntil(c, g, holder, until) && c.erasureStartedAt.None? && c.progress[g].next <= CopyCount(CountCaptured(c, g))
    requires claim == holder || until <= clock.now
    ensures
      var out := Step(c, OnLease(CallClaimSnapshot(claim)), clock);
      && out.reply.Claimed? && out.state == Taken(c, g, claim, clock)
      && ClaimedUntil(out.state, g, claim, clock.now + SNAPSHOT_LEASE_MS)
  {
    ProgressIsRead(c, g, holder, until);
    ProgressIsRead(Taken(c, g, claim, clock), g, claim, clock.now + SNAPSHOT_LEASE_MS);
  }

  lemma ClaimRefused(c: State, g: int, holder: string, until: int, claim: string, clock: Clock)
    requires ClaimedUntil(c, g, holder, until) && c.erasureStartedAt.None? && c.progress[g].next <= CopyCount(CountCaptured(c, g))
    requires claim != holder && clock.now < until
    ensures Step(c, OnLease(CallClaimSnapshot(claim)), clock) == Outcome(c, Nothing)
  {
    ProgressIsRead(c, g, holder, until);
  }

  /** Whoever asks gets the claim exactly if it is theirs or its lease is over, and then for a whole lease. */
  lemma ClaimedIff(c: State, g: int, holder: string, until: int, claim: string, clock: Clock)
    requires Inv(c) && ClaimedUntil(c, g, holder, until) && c.erasureStartedAt.None?
    ensures
      var out := Step(c, OnLease(CallClaimSnapshot(claim)), clock);
      if claim == holder || until <= clock.now then
        && out.reply.Claimed? && ClaimedUntil(out.state, g, claim, clock.now + SNAPSHOT_LEASE_MS)
        && out.state == Taken(c, g, claim, clock)
      else out == Outcome(c, Nothing)
  {
    CursorIsInside(c, g, holder, until);
    if claim == holder || until <= clock.now {
      ClaimTaken(c, g, holder, until, claim, clock);
    } else {
      ClaimRefused(c, g, holder, until, claim, clock);
    }
  }

  /** A claim just taken is exclusive: until its lease is over nobody else gets it, afterwards anybody does. */
  lemma ClaimIsExclusive(c: State, g: int, holder: string, until: int, claim: string, clock: Clock, other: string, later: Clock)
    requires Inv(c) && ClaimedUntil(c, g, holder, until) && c.erasureStartedAt.None? && other != claim
    requires Step(c, OnLease(CallClaimSnapshot(claim)), clock).reply.Claimed?
    ensures
      var claimed := Step(c, OnLease(CallClaimSnapshot(claim)), clock).state;
      Step(claimed, OnLease(CallClaimSnapshot(other)), later).reply.Claimed? <==> later.now >= clock.now + SNAPSHOT_LEASE_MS
  {
    ClaimedIff(c, g, holder, until, claim, clock);
    StepKeepsInv(c, OnLease(CallClaimSnapshot(claim)), clock);
    ClaimedIff(Taken(c, g, claim, clock), g, claim, clock.now + SNAPSHOT_LEASE_MS, other, later);
  }

  lemma LeaseSetIff(c: State, g: int, holder: string, until: int, claim: string, clock: Clock, expires: int)
    requires ClaimedUntil(c, g, holder, until) && c.progress[g].next <= CopyCount(CountCaptured(c, g))
    ensures
      var out := SetLease(c, g, claim, clock, expires);
      if claim == holder && clock.now < until
      then out.reply.Claimed? && out.state == c.(gateExpires := Some(expires))
      else out.reply.Refused? && out.state == c
  {
    ProgressIsRead(c, g, holder, until);
    ProgressIsRead(c.(gateExpires := Some(expires)), g, holder, expires);
  }

  lemma RenewSetsLease(c: State, g: int, claim: string, clock: Clock)
    requires c.erasureStartedAt.None?
    ensures Step(c, OnLease(CallRenewClaim(g, claim)), clock) == SetLease(c, g, claim, clock, clock.now + SNAPSHOT_LEASE_MS)
  {}

  /** The holder of a live claim, and nobody else, can renew it for a whole lease. */
  lemma RenewedIff(c: State, g: int, holder: string, until: int, claim: string, clock: Clock)
    requires Inv(c) && ClaimedUntil(c, g, holder, until) && c.erasureStartedAt.None?
    ensures
      var out := Step(c, OnLease(CallRenewClaim(g, claim)), clock);
      if claim == holder && clock.now < until
      then out.reply.Claimed? && out.state == c.(gateExpires := Some(clock.now + SNAPSHOT_LEASE_MS))
      else out.reply.Refused? && out.state == c
  {
    CursorIsInside(c, g, holder, until);
    RenewSetsLease(c, g, claim, clock);
    LeaseSetIff(c, g, holder, until, claim, clock, clock.now + SNAPSHOT_LEASE_MS);
  }

  /** The holder of a live claim, and nobody else, can give it up at once. */
  lemma ReleasedIff(c: State, g: int, holder: string, until: int, claim: string, clock: Clock)
    requires Inv(c) && ClaimedUntil(c, g, holder, until)
    ensures
      var out := Step(c, OnLease(CallReleaseClaim(g, claim)), clock);
      if claim == holder && clock.now < until
      then out.reply.Claimed? && out.state == c.(gateExpires := Some(clock.now))
      else out.reply.Refused? && out.state == c
  {
    CursorIsInside(c, g, holder, until);
    LeaseSetIff(c, g, holder, until, claim, clock, clock.now);
  }

  // ---- failures ----

  /** Tables with the snapshot given up: the gate is open, nothing is captured, every retained mark is kept. */
  function GivenUp(c: State, clock: Clock, failure: Option<Failure>): State {
    WithoutOldDays(OpenGate(c.(captured := map[], progress := map[], intents := map[], check := None, failure := failure)), clock)
  }

  lemma CaptureRemoved(c: State, g: int, clock: Clock)
    requires Inv(c) && c.phase.Snapshot? && c.activeGeneration == Some(g)
    ensures
      && c.failure.None? && c.captured - {g} == map[] && c.progress - {g} == map[]
      && FailCapture(c, g, clock) ==
         Outcome(WithoutOldDays(OpenGate(c.(captured := map[], progress := map[])), clock), KeptReply(c, g))
  {
    assert (c.captured - {g}).Keys == {} && (c.progress - {g}).Keys == {};
    PruneOutside(OpenGate(c.(captured := map[], progress := map[])), clock);
  }

  function KeptReply(c: State, g: int): Reply {
    Reply.Retained(g, CountCaptured(c, g))
  }

  /** The one outstanding Copy is the one at the cursor of a held generation. */
  predicate OneOutstanding(c: State, g: int, claim: string, clock: Clock, key: CopyKey, job: Option<string>) {
    HoldsKey(c, g, claim, clock, key) && key in c.intents && c.intents[key].job == job && c.intents - {key} == map[]
  }

  lemma EndsWithFailure(c: State, g: int, claim: string, clock: Clock, key: CopyKey, job: Option<string>, reason: string)
    requires Inv(c) && OneOutstanding(c, g, claim, clock, key, job)
    ensures FailWith(c.(intents := c.intents - {key}), c, g, reason, clock) ==
      Outcome(GivenUp(c, clock, Some(Failure(g, reason, clock.now))), Done)
  {
    CaptureRemoved(c, g, clock);
    var removed := c.(intents := map[]);
    assert (removed.captured - {g}).Keys == {} && (removed.progress - {g}).Keys == {};
    PruneOutside(OpenGate(removed.(captured := map[], progress := map[])), clock);
  }

  /** A Copy settled as failed ends its generation with a failure row, and so does one that never started. */
  lemma FailedCopyEnds(c: State, g: int, claim: string, clock: Clock, key: CopyKey, job: string)
    requires Inv(c) && OneOutstanding(c, g, claim, clock, key, Some(job))
    ensures Step(c, OnCopy(CallSettleIntent(key, claim, c.progress[g].next, job, false)), clock) ==
      Outcome(GivenUp(c, clock, Some(Failure(g, "Snapshot Copy job " + job + " failed", clock.now))), Done)
  {
    HoldingView(c, g, claim, clock);
    EndsWithFailure(c, g, claim, clock, key, Some(job), "Snapshot Copy job " + job + " failed");
  }

  lemma RejectedCopyEnds(c: State, g: int, claim: string, clock: Clock, key: CopyKey, reason: string)
    requires Inv(c) && OneOutstanding(c, g, claim, clock, key, None)
    ensures Step(c, OnCopy(CallRejectIntent(key, claim, c.progress[g].next, reason)), clock) ==
      Outcome(GivenUp(c, clock, Some(Failure(g, reason, clock.now))), Done)
  {
    HoldingView(c, g, claim, clock);
    EndsWithFailure(c, g, claim, clock, key, None, reason);
  }

  /** The holder of a live claim may give a generation up exactly while no Copy is outstanding. */
  lemma GivenUpIff(c: State, g: int, claim: string, clock: Clock, reason: Option<string>)
    requires Inv(c) && Holding(c, g, claim, clock)
    ensures
      var out := Step(c, OnGate(CallFailSnapshot(g, claim, reason)), clock);
      if c.intents == map[]
      then out == Outcome(GivenUp(c, clock, if reason.Some? then Some(Failure(g, reason.value, clock.now)) else None), KeptReply(c, g))
      else out == Outcome(c, Refused(OutstandingIntents))
  {
    HoldingView(c, g, claim, clock);
    CaptureRemoved(c, g, clock);
  }

  /** A failure holds snapshots off until an operator resumes its generation; then nothing of it is left. */
  lemma FailureHoldsSnapshots(c: State, failure: Failure, claim: string, g: int, clock: Clock)
    requires c.failure == Some(failure) && c.erasureStartedAt.None?
    ensures Step(c, OnGate(CallRequestSnapshot), clock) == Outcome(c, Refused(FailurePending))
    ensures Step(c, OnGate(CallBeginSnapshot(claim)), clock) == Outcome(c, Refused(FailurePending))
    ensures Step(c, OnRecovery(CallResume(g)), clock) ==
      if g == failure.generation then Outcome(c.(failure := None), Done) else Outcome(c, Refused(NotRecoverable))
  {}

  // ---- checks ----

  /** The check of the Copy at the cursor. */
  predicate Checking(c: State, g: int, check: Check) {
    g in c.progress && c.check == Some(check) && check.generation == g && check.copyIndex == c.progress[g].next
  }

  function CheckCall(c: State, g: int, claim: string, recovery: bool): Call
    requires g in c.progress
  {
    OnRecovery(CallPrepareCheck(g, claim, c.progress[g].next, recovery))
  }

  /**
   * How often a job is checked: a check may be made exactly when it is due, not blocked and within its
   * budget of fifteen looks at the status or three at the receipt, and counts; one that is due beyond
   * the budget blocks the generation; any other changes nothing.
   */
  lemma CheckedIff(c: State, g: int, claim: string, clock: Clock, check: Check, recovery: bool)
    requires Holding(c, g, claim, clock) && Checking(c, g, check)
    ensures
      var out := Step(c, CheckCall(c, g, claim, recovery), clock);
      var made := if recovery then check.recoveryChecks else check.statusChecks;
      var due := check.blocked.None? && check.nextCheckAt <= clock.now;
      && out.reply.CheckResult? && out.state == c.(check := Some(out.reply.check))
      && (out.reply.ready <==> due && made < (if recovery then 3 else 15))
      && (!due ==> out.reply.check == check)
      && (due && !out.reply.ready ==>
            out.reply.check == check.(blocked := Some(if recovery then ReceiptNotRecovered else StatusBudgetExceeded)))
      && (out.reply.ready ==>
            out.reply.check == if recovery
              then check.(recoveryChecks := made + 1, recoveryRequired := true, nextCheckAt := clock.now + Wait(true, made))
              else check.(statusChecks := made + 1, recoveryRequired := false, nextCheckAt := clock.now + Wait(false, made)))
  {
    HoldingView(c, g, claim, clock);
    WaitIsDelay(recovery, if recovery then check.recoveryChecks else check.statusChecks);
  }

  /** The wait after so many checks: ten seconds, half a minute, then a minute; for receipts one, two, four minutes. */
  function Wait(recovery: bool, made: nat): int {
    if recovery then (if made == 0 then 60_000 else if made == 1 then 120_000 else if made == 2 then 240_000 else 300_000)
    else if made == 0 then 10_000 else if made == 1 then 30_000 else 60_000
  }

  lemma {:induction false} PowerAtLeast(n: nat)
    requires n >= 3
    ensures Pow2(n) >= 8
  {
    if n > 3 {
      PowerAtLeast(n - 1);
    } else {
      assert Pow2(3) == 2 * Pow2(2) && Pow2(2) == 2 * Pow2(1) && Pow2(1) == 2 * Pow2(0);
    }
  }

  lemma WaitIsDelay(recovery: bool, made: nat)
    ensures CheckDelay(recovery, made) == Wait(recovery, made)
  {
    assert Pow2(2) == 2 * Pow2(1) && Pow2(1) == 2 * Pow2(0);
    if made >= 3 {
      PowerAtLeast(made);
    }
    if made >= 4 {
      PowerAtLeast(made - 1);
    } else if made == 3 {
      assert Pow2(made - 1) == 4;
    }
  }

  /** An operator who resumes a blocked generation makes its check due again, for whoever takes the claim. */
  lemma ResumedCheckIsDue(c: State, g: int, holder: string, until: int, check: Check, claim: string, clock: Clock, recovery: bool)
    requires Inv(c) && ClaimedUntil(c, g, holder, until) && until <= clock.now && c.erasureStartedAt.None?
    requires Checking(c, g, check) && check.blocked.Some?
    ensures
      var resumed := Step(c, OnRecovery(CallResume(g)), clock).state;
      var claimed := Step(resumed, OnLease(CallClaimSnapshot(claim)), clock).state;
      && g in claimed.progress
      && var out := Step(claimed, CheckCall(claimed, g, claim, recovery), clock);
         out.reply.CheckResult? && out.reply.ready
  {
    var due := check.(statusChecks := 0, recoveryChecks := 0, blocked := None, nextCheckAt := clock.now);
    var resumed := c.(check := Some(due));
    assert Step(c, OnRecovery(CallResume(g)), clock) == Outcome(resumed, Done);
    StepKeepsInv(c, OnRecovery(CallResume(g)), clock);
    ClaimedIff(resumed, g, holder, until, claim, clock);
    CheckedIff(Taken(resumed, g, claim, clock), g, claim, clock, due, recovery);
  }

  /** The manifest is stamped once: preparing it again keeps its time. */
  lemma StampedOnce(c: State, g: int, claim: string, clock: Clock)
    requires Holding(c, g, claim, clock) && CaptureRetained(c, clock) && c.progress[g].manifestAt.Some?
    requires c.progress[g].next == CopyCount(CountCaptured(c, g))
    ensures Step(c, OnGate(CallPrepareManifest(g, claim)), clock).state == c
  {
    HoldingView(c, g, claim, clock);
    assert c.progress[g := c.progress[g]] == c.progress;
  }

  /** An operator may retire a generation exactly if its claim is over and its one Copy, never given a job, was given up on. */
  lemma AbandonedIff(c: State, g: int, reason: string, key: CopyKey, startedAt: int, clock: Clock)
    requires Inv(c) && c.phase.Snapshot? && c.activeGeneration == Some(g) && c.erasureStartedAt.None? && KeyFault(key).None?
    ensures
      var out := Step(c, OnRecovery(CallAbandonUnstarted(g, reason, key, startedAt)), clock);
      if c.gateExpires.value <= clock.now && c.intents == map[key := Intent(startedAt, None)] && key.generation == g
         && c.check.Some? && c.check.value.blocked == Some(ReceiptNotRecovered)
      then out == Outcome(GivenUp(c, clock, Some(Failure(g, reason, clock.now))), Done)
      else out == Outcome(c, Refused(NotUnstarted))
  {
    CaptureRemoved(c, g, clock);
    if c.intents == map[key := Intent(startedAt, None)] {
      assert c.intents - {key} == map[];
      var removed := c.(intents := map[]);
      assert (removed.captured - {g}).Keys == {} && (removed.progress - {g}).Keys == {};
      PruneOutside(OpenGate(removed.(captured := map[], progress := map[])), clock);
    }
  }
}
