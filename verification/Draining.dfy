/**
 * Draining: with no new delivery and a fixed retention window, no run finishes more rounds than there
 * are dirty days, another round can always be finished while a component without an incomplete day
 * is left, and what is left in the end are the days joined to an incomplete day.
 */
module Draining {
  import opened Contract
  import opened CoordinatorModel
  import opened CoordinatorInvariants
  import opened CoordinatorRuns
  import opened CoordinatorSafety
  import opened PublicationInvariants
  import opened PublicationCalls
  import opened SnapshotRounds
  import opened CopyPlan
  import opened DayGraph

  /** A sequence of round calls inside one retention window. */
  predicate Rounds(run: seq<Event>, oldest: Day, today: Day) {
    forall i :: 0 <= i < |run| ==> RoundCall(run[i].call) && run[i].clock.oldest == oldest && run[i].clock.today == today
  }

  /** No delivery is active, every day is retained, and a capture in progress is the selected one. */
  ghost predicate Quiescent(c: State, oldest: Day, today: Day) {
    && Inv(c) && c.active == map[] && c.erasureStartedAt.None? && InWindow(c, oldest, today)
    && (c.activeGeneration.Some? ==> c.captured == map[c.activeGeneration.value := Select(c.dirty, c.incomplete, c.links)])
  }

  /** What one round call does to the dirty days: nothing, or clear the selected ones. */
  ghost predicate RoundStep(c: State, c1: State) {
    || SameDayTables(c, c1)
    || (&& SameDayTables(c, c1.(dirty := c.dirty, links := c.links))
        && var captured := Select(c.dirty, c.incomplete, c.links);
        && captured != {} && c1.dirty == c.dirty - captured && c1.links == LinksOutside(c.links, captured))
  }

  lemma CapturedIsSelected(c: State, claim: string, clock: Clock)
    requires GateInv(c) && IdleInv(c) && InWindow(c, clock.oldest, clock.today)
    ensures
      var out := BeginSnapshot(c, claim, clock);
      out.reply.Begun? ==> out.reply.days == Select(c.dirty, c.incomplete, c.links)
  {
    RecoverIsQuiet(c, clock);
    BeginShape(c, claim, clock);
  }

  lemma FinishClearsSelection(c: State, g: int, claim: string, clock: Clock)
    requires Quiescent(c, clock.oldest, clock.today)
    ensures RoundStep(c, FinishSnapshot(c, g, claim, clock).state)
  {
    FinishIs(c, g, claim, clock);
  }

  lemma RoundTables(c: State, call: Call, clock: Clock)
    requires Quiescent(c, clock.oldest, clock.today) && RoundCall(call)
    ensures RoundStep(c, Step(c, call, clock).state)
  {
    if Framed(call) {
      StepFrame(c, call, clock);
      FrameIsQuiet(c, Step(c, call, clock).state, clock);
    } else if call.OnGate? {
      FinishClearsSelection(c, call.gate.generation, call.gate.claim, clock);
    } else {
      RecordIntentShape(c, call.copy.key, call.copy.claim, call.copy.copyIndex, call.copy.startedAt, clock);
    }
  }

  lemma BeginIsGate(c: State, call: Call, clock: Clock)
    requires Inv(c) && Step(c, call, clock).reply.Begun?
    ensures call.OnGate? && call.gate.CallBeginSnapshot?
  {
    if !call.OnGate? {
      OnlyGateCallsBegin(c, call, clock);
    } else {
      OnlyBeginBegins(c, call.gate, clock);
    }
  }

  lemma OnlyBeginBegins(c: State, call: GateCall, clock: Clock)
    requires GateStep(c, call, clock).reply.Begun?
    ensures call.CallBeginSnapshot?
  {}

  /** A capture that a round call leaves active was active before, or has just been selected. */
  lemma RoundCapture(c: State, call: Call, clock: Clock)
    requires Quiescent(c, clock.oldest, clock.today) && RoundCall(call)
    ensures
      var c1 := Step(c, call, clock).state;
      c1.activeGeneration.Some? ==>
        && SameDayTables(c, c1)
        && c1.captured == map[c1.activeGeneration.value := Select(c.dirty, c.incomplete, c.links)]
  {
    var out := Step(c, call, clock);
    StepMoves(c, call, clock);
    if out.state.activeGeneration.Some? {
      if Began(c, out) {
        BeginIsGate(c, call, clock);
        CapturedIsSelected(c, call.gate.claim, clock);
        StepFrame(c, call, clock);
        FrameIsQuiet(c, out.state, clock);
      } else {
        NotFinished(c, call, clock);
      }
    }
  }

  lemma NotFinished(c: State, call: Call, clock: Clock)
    requires Quiescent(c, clock.oldest, clock.today) && RoundCall(call)
    requires Step(c, call, clock).state.activeGeneration.Some?
    ensures SameDayTables(c, Step(c, call, clock).state)
  {
    RoundTables(c, call, clock);
    if Framed(call) {
      StepFrame(c, call, clock);
      FrameIsQuiet(c, Step(c, call, clock).state, clock);
    } else if call.OnGate? {
      FinishEnds(c, call.gate.generation, call.gate.claim, clock);
    } else {
      RecordIntentShape(c, call.copy.key, call.copy.claim, call.copy.copyIndex, call.copy.startedAt, clock);
    }
  }

  lemma FinishEnds(c: State, g: int, claim: string, clock: Clock)
    ensures
      var c1 := FinishSnapshot(c, g, claim, clock).state;
      c1 == c || c1.activeGeneration.None?
  {}

  lemma RoundKeepsWindow(c: State, c1: State, oldest: Day, today: Day)
    requires RoundStep(c, c1) && InWindow(c, oldest, today)
    ensures InWindow(c1, oldest, today) && c1.active == c.active && c1.erasureStartedAt == c.erasureStartedAt
    ensures c1.incomplete == c.incomplete
  {}

  lemma RoundKeepsQuiescent(c: State, call: Call, clock: Clock)
    requires Quiescent(c, clock.oldest, clock.today) && RoundCall(call)
    ensures Quiescent(Step(c, call, clock).state, clock.oldest, clock.today)
  {
    var c1 := Step(c, call, clock).state;
    StepKeepsInv(c, call, clock);
    RoundTables(c, call, clock);
    RoundCapture(c, call, clock);
    RoundKeepsWindow(c, c1, clock.oldest, clock.today);
  }

  /** A round call keeps what draining will leave, and keeps the days that are stuck. */
  lemma RoundKeepsDrain(c: State, c1: State)
    requires RoundStep(c, c1)
    ensures Drained(c1.dirty, c1.incomplete, c1.links) == Drained(c.dirty, c.incomplete, c.links)
    ensures c1.dirty <= c.dirty && (c1.dirty != c.dirty ==> |c1.dirty| < |c.dirty|)
  {
    if !SameDayTables(c, c1) {
      SelectIsClosed(c.dirty, c.incomplete, c.links);
      if c1.dirty != c.dirty {
        CardinalityDrops(c1.dirty, c.dirty);
      }
    }
  }

  lemma {:induction false} RoundsKeepDrain(c: State, run: seq<Event>, oldest: Day, today: Day)
    requires Quiescent(c, oldest, today) && Rounds(run, oldest, today)
    ensures
      var c1 := Continue(c, run);
      && Quiescent(c1, oldest, today) && c1.incomplete == c.incomplete && c1.dirty <= c.dirty
      && c1.lastSequence == c.lastSequence
      && Drained(c1.dirty, c1.incomplete, c1.links) == Drained(c.dirty, c.incomplete, c.links)
  {
    if run != [] {
      var init, last := run[..|run| - 1], run[|run| - 1];
      RoundsKeepDrain(c, init, oldest, today);
      var before := Continue(c, init);
      RoundKeepsQuiescent(before, last.call, last.clock);
      RoundTables(before, last.call, last.clock);
      RoundKeepsDrain(before, Step(before, last.call, last.clock).state);
    }
  }

  /** Every finished round clears at least one day. */
  lemma FinishedRoundShrinks(c: State, g: int, claim: string, clock: Clock)
    requires Quiescent(c, clock.oldest, clock.today)
    requires FinishSnapshot(c, g, claim, clock).reply.Finished?
    ensures |FinishSnapshot(c, g, claim, clock).state.dirty| < |c.dirty|
  {
    FinishIs(c, g, claim, clock);
    AssertedClaimIsActive(c, g, claim, clock);
    SelectIsCapture(c.dirty, c.incomplete, c.links);
    CardinalityDrops(FinishSnapshot(c, g, claim, clock).state.dirty, c.dirty);
  }

  lemma AssertedClaimIsActive(c: State, g: int, claim: string, clock: Clock)
    requires GenerationInv(c) && InWindow(c, clock.oldest, clock.today)
    requires FinishSnapshot(c, g, claim, clock).reply.Finished?
    ensures c.activeGeneration == Some(g) && g in c.captured && c.captured[g] != {} && c.captured[g] <= c.dirty
    ensures FinishSnapshot(c, g, claim, clock).state.dirty == c.dirty - c.captured[g]
  {
    ClaimHolder(c, g, claim, clock);
    var days := c.captured[g];
    var base := c.(links := (set l | l in c.links && !(l.a in days && l.b in days)), dirty := c.dirty - days);
    PruneIdle(OpenGate(base.(captured := base.captured - {g}, progress := base.progress - {g})), clock);
  }

  /**
   * Rounds end with exactly the stuck days: when, after any rounds, beginning a snapshot reports
   * that no complete dirty day is left, the dirty days are those that were joined to an incomplete
   * day when draining started.
   */
  lemma DrainingEndsWithStuckDays(c: State, run: seq<Event>, claim: string, clock: Clock)
    requires Quiescent(c, clock.oldest, clock.today) && Rounds(run, clock.oldest, clock.today)
    requires
      var last := Continue(c, run);
      last.dirty == {} || BeginSnapshot(last, claim, clock).reply == Refused(NoCompleteDirtyDays)
    ensures Continue(c, run).dirty == Stuck(c.dirty, c.incomplete, c.links)
  {
    RoundsKeepDrain(c, run, clock.oldest, clock.today);
    var last := Continue(c, run);
    NothingSelected(last, claim, clock);
    DrainEndsWithStuckDays(c.dirty, c.incomplete, c.links);
  }

  lemma NothingSelected(c: State, claim: string, clock: Clock)
    requires GateInv(c) && IdleInv(c) && InWindow(c, clock.oldest, clock.today)
    requires c.dirty == {} || BeginSnapshot(c, claim, clock).reply == Refused(NoCompleteDirtyDays)
    ensures Select(c.dirty, c.incomplete, c.links) == {}
  {
    RecoverIsQuiet(c, clock);
    SelectIsClosed(c.dirty, c.incomplete, c.links);
  }

  // ---- how many rounds there are ----

  /** How often a run from these tables reports a finished snapshot. */
  ghost function FinishedCount(c: State, run: seq<Event>): nat {
    if run == [] then 0
    else
      var init, last := run[..|run| - 1], run[|run| - 1];
      FinishedCount(c, init) + if Step(Continue(c, init), last.call, last.clock).reply.Finished? then 1 else 0
  }

  lemma CopyCallsDoNotFinish(c: State, call: CopyCall, clock: Clock)
    requires GateInv(c)
    ensures !CopyStep(c, call, clock).reply.Finished?
  {
    match call
    case CallRecordIntent(key, claim, i, startedAt) => RecordIntentShape(c, key, claim, i, startedAt, clock);
    case CallAttachJob(key, claim, i, job) =>
    case CallSettleIntent(key, claim, i, job, ok) =>
      SettleShape(c, key, claim, i, job, ok, clock);
      FailWithEnds(c, key, key.generation, "Snapshot Copy job " + job + " failed", clock);
    case CallRejectIntent(key, claim, i, reason) =>
      RejectShape(c, key, claim, i, reason, clock);
      FailWithEnds(c, key, key.generation, reason, clock);
  }

  lemma GateCallsThatFinish(c: State, call: GateCall, clock: Clock)
    requires GateInv(c) && IdleInv(c) && GateStep(c, call, clock).reply.Finished?
    ensures call.CallFinishSnapshot?
  {
    match call
    case CallRequestSnapshot => RequestStays(c, clock);
    case CallBeginSnapshot(claim) => BeginMoves(c, claim, clock);
    case CallPrepareManifest(g, claim) => ManifestStays(c, g, claim, clock);
    case CallFinishSnapshot(g, claim) =>
    case CallFailSnapshot(g, claim, reason) => FailMoves(c, g, claim, reason, clock);
    case CallGetStats =>
  }

  lemma OnlyFinishFinishes(c: State, call: Call, clock: Clock)
    requires Inv(c) && RoundCall(call) && Step(c, call, clock).reply.Finished?
    ensures call.OnGate? && call.gate.CallFinishSnapshot?
  {
    match call
    case OnGate(gate) => GateCallsThatFinish(c, gate, clock);
    case OnLease(lease) => LeaseStays(c, lease, clock);
    case OnCopy(copy) => CopyCallsDoNotFinish(c, copy, clock);
    case OnRecovery(recovery) => RecoveryMoves(c, recovery, clock);
  }

  /** No run finishes more rounds than there are dirty days; each one finished leaves fewer. */
  lemma {:induction false} FinishedRoundsAreFew(c: State, run: seq<Event>, oldest: Day, today: Day)
    requires Quiescent(c, oldest, today) && Rounds(run, oldest, today)
    ensures FinishedCount(c, run) + |Continue(c, run).dirty| <= |c.dirty|
  {
    if run != [] {
      var init, last := run[..|run| - 1], run[|run| - 1];
      FinishedRoundsAreFew(c, init, oldest, today);
      RoundsKeepDrain(c, init, oldest, today);
      RoundCounts(Continue(c, init), last);
    }
  }

  lemma RoundCounts(c: State, e: Event)
    requires Quiescent(c, e.clock.oldest, e.clock.today) && RoundCall(e.call)
    ensures
      var out := Step(c, e.call, e.clock);
      |out.state.dirty| + (if out.reply.Finished? then 1 else 0) <= |c.dirty|
  {
    var out := Step(c, e.call, e.clock);
    RoundTables(c, e.call, e.clock);
    RoundKeepsDrain(c, out.state);
    if out.reply.Finished? {
      OnlyFinishFinishes(c, e.call, e.clock);
      FinishedRoundShrinks(c, e.call.gate.generation, e.call.gate.claim, e.clock);
    }
  }

  // ---- a round can always be finished ----

  /** Enough generation and attempt numbers are left for this many more rounds. */
  predicate Room(c: State, rounds: nat) {
    (c.lastGeneration + rounds) * COPY_ATTEMPT_MULTIPLIER + MAX_COPY_CHUNKS <= MAX_SAFE_INTEGER
  }

  /** Between rounds: the gate is open or its drain has run out, and no failure is pending. */
  predicate Between(c: State, clock: Clock) {
    !c.phase.Snapshot? && LeaseOver(c, clock) && c.failure.None?
  }

  /** A round is under way: its claim is held and its capture is the selected one. */
  ghost predicate UnderWay(c: State, g: int, claim: string, clock: Clock) {
    && Holding(c, g, claim, clock) && CursorOnly(c, g) && g == c.lastGeneration
    && c.captured == map[g := Select(c.dirty, c.incomplete, c.links)]
  }

  lemma RoomToPlan(c: State, g: int, claim: string, clock: Clock)
    requires Quiescent(c, clock.oldest, clock.today) && Room(c, 0) && UnderWay(c, g, claim, clock)
    ensures Plannable(g, CountCaptured(c, g)) && CaptureRetained(c, clock)
    ensures c.captured[g] <= c.dirty && c.captured[g] != {}
  {
    SelectIsClosed(c.dirty, c.incomplete, c.links);
    CapturedDaysOne(c, g);
    SubsetCardinality(c.captured[g], c.dirty);
    SubsetCardinality(c.dirty, PendingDays(c));
    PlannableInRoom(c.lastGeneration, CountCaptured(c, g));
  }

  lemma PlannableInRoom(g: nat, days: nat)
    requires g * COPY_ATTEMPT_MULTIPLIER + MAX_COPY_CHUNKS <= MAX_SAFE_INTEGER && 1 <= g && days <= MAX_DIRTY_DAYS
    ensures Plannable(g, days)
  {}

  /** What finishing the captured round leaves. */
  ghost predicate RoundDone(c: State, c1: State, clock: Clock) {
    && Between(c1, clock) && c1.lastGeneration == c.lastGeneration
    && c1.dirty == c.dirty - Select(c.dirty, c.incomplete, c.links) && c1.dirty < c.dirty
  }

  lemma FinishedTables(c: State, g: int, clock: Clock)
    requires g in c.captured && c.captured[g] <= c.dirty && c.captured[g] != {}
    requires InWindow(c, clock.oldest, clock.today) && c.failure.None?
    ensures
      var c1 := FinishCapture(c, g, clock).(check := None);
      && Between(c1, clock) && c1.lastGeneration == c.lastGeneration
      && c1.dirty == c.dirty - c.captured[g] && c1.dirty < c.dirty
  {
    var days := c.captured[g];
    var base := c.(links := (set l | l in c.links && !(l.a in days && l.b in days)), dirty := c.dirty - days);
    PruneIdle(OpenGate(base.(captured := base.captured - {g}, progress := base.progress - {g})), clock);
  }

  lemma CopiedKeepsTables(c: State, c1: State, g: int, claim: string, clock: Clock)
    requires Holding(c, g, claim, clock) && CopiedTo(c, c1, g)
    ensures Holding(c1, g, claim, clock) && c1.captured == c.captured && c1.dirty == c.dirty && c1.links == c.links
    ensures c1.incomplete == c.incomplete && c1.lastGeneration == c.lastGeneration
    ensures c1.progress[g].next == CopyCount(CountCaptured(c1, g)) && CapturedDays(c1) == CapturedDays(c)
  {}

  /** A round that is under way can be finished. */
  lemma UnderWayIsFinished(c: State, g: int, claim: string, clock: Clock) returns (run: seq<Event>, c1: State)
    requires Quiescent(c, clock.oldest, clock.today) && Room(c, 0) && UnderWay(c, g, claim, clock)
    ensures Carries(c, run, c1, clock) && RoundDone(c, c1, clock)
  {
    RoomToPlan(c, g, claim, clock);
    var copies, copied := CopiesAreCarried(c, g, claim, clock);
    CopiedKeepsTables(c, copied, g, claim, clock);
    var finish := FinishIsCarried(copied, g, claim, clock);
    FinishedTables(Stamp(copied, g, clock), g, clock);
    c1 := FinishCapture(Stamp(copied, g, clock), g, clock).(check := None);
    CarriesOn(c, copies, copied, finish, c1, clock);
    run := copies + finish;
  }

  /** Run steps keep draining's frame. */
  lemma CarriedIsQuiescent(c: State, run: seq<Event>, c1: State, clock: Clock)
    requires Quiescent(c, clock.oldest, clock.today) && Carries(c, run, c1, clock)
    ensures Quiescent(c1, clock.oldest, clock.today) && c1.incomplete == c.incomplete && c1.dirty <= c.dirty
    ensures Drained(c1.dirty, c1.incomplete, c1.links) == Drained(c.dirty, c.incomplete, c.links)
  {
    RoundsKeepDrain(c, run, clock.oldest, clock.today);
  }

  /** With a component left, the next round can be begun. */
  lemma BeginIsCarried(c: State, claim: string, clock: Clock) returns (run: seq<Event>, c1: State)
    requires Quiescent(c, clock.oldest, clock.today) && Room(c, 1) && Between(c, clock)
    requires Select(c.dirty, c.incomplete, c.links) != {}
    ensures Carries(c, run, c1, clock) && SameDayTables(c, c1) && c1.lastGeneration == c.lastGeneration + 1
    ensures UnderWay(c1, c.lastGeneration + 1, claim, clock)
  {
    AcceptsBegin(c, claim, clock);
    var begin := Event(OnGate(CallBeginSnapshot(claim)), clock);
    c1 := Step(c, begin.call, clock).state;
    CarriesOne(c, begin, c1);
    run := [begin];
  }

  /** From between two rounds, draining can be carried to its end. */
  lemma {:induction false} BetweenIsDrained(c: State, claim: string, clock: Clock) returns (run: seq<Event>, c1: State)
    requires Quiescent(c, clock.oldest, clock.today) && Room(c, |c.dirty|) && Between(c, clock)
    ensures Carries(c, run, c1, clock) && Between(c1, clock) && Select(c1.dirty, c1.incomplete, c1.links) == {}
    decreases |c.dirty|, 1
  {
    if Select(c.dirty, c.incomplete, c.links) == {} {
      CarriesNone(c, clock);
      run, c1 := [], c;
    } else {
      SelectIsClosed(c.dirty, c.incomplete, c.links);
      SubsetCardinality(Select(c.dirty, c.incomplete, c.links), c.dirty);
      var begin, begun := BeginIsCarried(c, claim, clock);
      CarriedIsQuiescent(c, begin, begun, clock);
      var rest;
      rest, c1 := UnderWayIsDrained(begun, c.lastGeneration + 1, claim, clock);
      CarriesOn(c, begin, begun, rest, c1, clock);
      run := begin + rest;
    }
  }

  lemma {:induction false} UnderWayIsDrained(c: State, g: int, claim: string, clock: Clock) returns (run: seq<Event>, c1: State)
    requires Quiescent(c, clock.oldest, clock.today) && c.dirty != {} && Room(c, |c.dirty| - 1) && UnderWay(c, g, claim, clock)
    ensures Carries(c, run, c1, clock) && Between(c1, clock) && Select(c1.dirty, c1.incomplete, c1.links) == {}
    decreases |c.dirty|, 0
  {
    var round, done := UnderWayIsFinished(c, g, claim, clock);
    CarriedIsQuiescent(c, round, done, clock);
    CardinalityDrops(done.dirty, c.dirty);
    var rest;
    rest, c1 := BetweenIsDrained(done, claim, clock);
    CarriesOn(c, round, done, rest, c1, clock);
    run := round + rest;
  }

  /** Taking over a claim whose lease is over, or clearing a failure, puts the rounds back on their way. */
  lemma AnyIsDrained(c: State, claim: string, clock: Clock) returns (run: seq<Event>, c1: State)
    requires Quiescent(c, clock.oldest, clock.today) && LeaseOver(c, clock) && Room(c, |c.dirty|)
    ensures Carries(c, run, c1, clock) && Between(c1, clock) && Select(c1.dirty, c1.incomplete, c1.links) == {}
  {
    if c.phase.Snapshot? {
      run, c1 := TakenOverIsDrained(c, claim, clock);
    } else if c.failure.None? {
      run, c1 := BetweenIsDrained(c, claim, clock);
    } else {
      var resume := Event(OnRecovery(CallResume(c.failure.value.generation)), clock);
      var cleared := c.(failure := None);
      AcceptsResume(c, clock);
      CarriesOne(c, resume, cleared);
      CarriedIsQuiescent(c, [resume], cleared, clock);
      var rest;
      rest, c1 := BetweenIsDrained(cleared, claim, clock);
      CarriesOn(c, [resume], cleared, rest, c1, clock);
      run := [resume] + rest;
    }
  }

  lemma TakenOverIsDrained(c: State, claim: string, clock: Clock) returns (run: seq<Event>, c1: State)
    requires Quiescent(c, clock.oldest, clock.today) && LeaseOver(c, clock) && Room(c, |c.dirty|) && c.phase.Snapshot?
    ensures Carries(c, run, c1, clock) && Between(c1, clock) && Select(c1.dirty, c1.incomplete, c1.links) == {}
  {
    var g: int := c.lastGeneration;
    var take := Event(OnLease(CallClaimSnapshot(claim)), clock);
    AcceptsClaim(c, claim, clock);
    var taken := Taken(c, g, claim, clock);
    CarriesOne(c, take, taken);
    CarriedIsQuiescent(c, [take], taken, clock);
    SelectIsClosed(c.dirty, c.incomplete, c.links);
    var rest;
    rest, c1 := UnderWayIsDrained(taken, g, claim, clock);
    CarriesOn(c, [take], taken, rest, c1, clock);
    run := [take] + rest;
  }

  lemma DrainsToStuck(c: State, claim: string, clock: Clock) returns (run: seq<Event>, c1: State)
    requires Quiescent(c, clock.oldest, clock.today) && LeaseOver(c, clock) && Room(c, |c.dirty|)
    ensures Carries(c, run, c1, clock) && Between(c1, clock) && c1.dirty == Stuck(c.dirty, c.incomplete, c.links)
  {
    run, c1 := AnyIsDrained(c, claim, clock);
    CarriedIsQuiescent(c, run, c1, clock);
    DrainEndsWithStuckDays(c.dirty, c.incomplete, c.links);
  }

  lemma CarriedIsRounds(c: State, run: seq<Event>, c1: State, clock: Clock)
    requires Carries(c, run, c1, clock)
    ensures Rounds(run, clock.oldest, clock.today) && c1 == Continue(c, run)
  {}

  /**
   * Draining terminates. From any quiescent tables, once an old lease has run out, some run of snapshot
   * calls ends with exactly the stuck days dirty and the gate ready to open; and, as for every run, it
   * finishes at most as many rounds as days it cleans.
   */
  lemma DrainingCanEnd(c: State, claim: string, clock: Clock) returns (run: seq<Event>)
    requires Quiescent(c, clock.oldest, clock.today) && LeaseOver(c, clock) && Room(c, |c.dirty|)
    ensures Rounds(run, clock.oldest, clock.today)
    ensures Continue(c, run).dirty == Stuck(c.dirty, c.incomplete, c.links)
    ensures FinishedCount(c, run) + |Stuck(c.dirty, c.incomplete, c.links)| <= |c.dirty|
    ensures Quiescent(Continue(c, run), clock.oldest, clock.today) && Between(Continue(c, run), clock)
    ensures Continue(c, run).lastSequence == c.lastSequence
  {
    var c1;
    run, c1 := DrainsToStuck(c, claim, clock);
    CarriedIsRounds(c, run, c1, clock);
    RoundsKeepDrain(c, run, clock.oldest, clock.today);
    FinishedRoundsAreFew(c, run, clock.oldest, clock.today);
  }
}
