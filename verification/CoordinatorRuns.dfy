/**
 * What holds over whole runs of the coordinator: every sequence of public calls, in any order, with
 * any arguments and any clock readings, from the empty tables.
 */
module CoordinatorRuns {
  import opened Contract
  import opened CopyPlan
  import opened CoordinatorModel
  import opened CoordinatorInvariants
  import DayGraph

  datatype Event = Event(call: Call, clock: Clock)

  /** The tables after a run. */
  ghost function After(run: seq<Event>): State {
    if run == [] then INITIAL
    else Step(After(run[..|run| - 1]), run[|run| - 1].call, run[|run| - 1].clock).state
  }

  /** The tables after a run that starts from given tables. */
  ghost function Continue(c: State, run: seq<Event>): State {
    if run == [] then c
    else Step(Continue(c, run[..|run| - 1]), run[|run| - 1].call, run[|run| - 1].clock).state
  }

  /** What event number `i` of a run replied. */
  ghost function ReplyAt(run: seq<Event>, i: nat): Reply
    requires i < |run|
  {
    Step(After(run[..i]), run[i].call, run[i].clock).reply
  }

  lemma AfterNext(run: seq<Event>, i: nat)
    requires i < |run|
    ensures After(run[..i + 1]) == Step(After(run[..i]), run[i].call, run[i].clock).state
  {
    assert run[..i + 1][..i] == run[..i];
  }

  lemma {:induction false} ReachableInv(run: seq<Event>)
    ensures Inv(After(run))
  {
    if run == [] {
      InitialInv();
    } else {
      ReachableInv(run[..|run| - 1]);
      StepKeepsInv(After(run[..|run| - 1]), run[|run| - 1].call, run[|run| - 1].clock);
    }
  }

  /** Tables that some run produces. */
  ghost predicate ReachableState(c: State) {
    exists run :: c == After(run)
  }

  lemma ReachableStateInv(c: State)
    requires ReachableState(c)
    ensures Inv(c)
  {
    var run :| c == After(run);
    ReachableInv(run);
  }

  lemma ReachableStateStep(c: State, call: Call, clock: Clock)
    requires ReachableState(c)
    ensures ReachableState(Step(c, call, clock).state)
  {
    var run :| c == After(run);
    var longer := run + [Event(call, clock)];
    assert longer[..|longer| - 1] == run;
    assert After(longer) == Step(c, call, clock).state;
  }

  // ---- one step, seen from the generation ----

  /** The cursor of the active generation. */
  function Cursor(c: State): nat {
    if c.activeGeneration.Some? && c.activeGeneration.value in c.progress
    then c.progress[c.activeGeneration.value].next else 0
  }

  predicate Plain(reply: Reply) {
    !reply.Finished? && !reply.Begun?
  }

  predicate SameGeneration(c: State, c1: State) {
    && c1.lastGeneration == c.lastGeneration && c1.activeGeneration == c.activeGeneration
    && (c.activeGeneration.Some? ==> c1.captured == c.captured && Cursor(c1) == Cursor(c))
  }

  predicate Began(c: State, out: Outcome) {
    && c.activeGeneration.None? && out.reply.Begun?
    && out.state.lastGeneration == c.lastGeneration + 1
    && out.state.activeGeneration == Some(out.state.lastGeneration as int)
    && out.reply.generation == out.state.lastGeneration as int
    && Cursor(out.state) == 0
    && out.state.captured == map[out.reply.generation := out.reply.days]
  }

  predicate IsDoneSettlement(call: Call) {
    call.OnCopy? && call.copy.CallSettleIntent? && call.copy.succeeded
  }

  predicate IsDone(call: Call, reply: Reply) {
    IsDoneSettlement(call) && reply == Done
  }

  /** A Copy settled as done: the key at the cursor, by the holder of a live claim. */
  predicate Advanced(c: State, call: Call, out: Outcome) {
    && IsDone(call, out.reply)
    && var settle := call.copy;
    && var g := settle.key.generation;
    && c.activeGeneration == Some(g) && out.state.activeGeneration == Some(g)
    && out.state.lastGeneration == c.lastGeneration && out.state.captured == c.captured
    && Cursor(out.state) == Cursor(c) + 1
    && settle.copyIndex == Cursor(c)
    && KeyAt(g, CountCaptured(c, g), Cursor(c)) == Some(settle.key)
    && g in c.progress && c.progress[g].claim == settle.claim
    && settle.key in c.intents && c.intents[settle.key].job == Some(settle.job)
    && settle.key !in out.state.intents
  }

  predicate Ended(c: State, c1: State) {
    && c.activeGeneration.Some? && c1.activeGeneration.None?
    && c1.lastGeneration == c.lastGeneration
  }

  /** How one call can move the generation. Only a done settlement advances the cursor. */
  predicate Moved(c: State, call: Call, out: Outcome) {
    || (SameGeneration(c, out.state) && !IsDone(call, out.reply) && Plain(out.reply))
    || (Began(c, out) && !IsDone(call, out.reply))
    || Advanced(c, call, out)
    || (Ended(c, out.state) && !IsDone(call, out.reply) && !out.reply.Begun? && (out.reply.Finished? ==>
          && c.activeGeneration == Some(out.reply.generation)
          && out.reply.cleared == CountCaptured(c, out.reply.generation)
          && Cursor(c) == CopyCount(out.reply.cleared)
          && c.intents == map[]))
  }

  // Most calls leave the generation alone; each lemma below says so of one call.

  predicate Stays(c: State, out: Outcome) {
    SameGeneration(c, out.state) && Plain(out.reply)
  }

  lemma RecoverStays(c: State, clock: Clock)
    requires GateInv(c) && IdleInv(c)
    ensures RecoverAndPrune(c, clock).Ok?
    ensures
      var c1 := RecoverAndPrune(c, clock).value;
      && SameGeneration(c, c1) && GateInv(c1) && c1.intents == c.intents
      && (!c1.phase.Snapshot? ==> c1.captured == map[] && c1.progress == map[])
  {
    RecoverShape(c, clock.now);
  }

  lemma ReserveStays(c: State, input: ReserveInput, clock: Clock)
    requires GateInv(c) && IdleInv(c)
    ensures Stays(c, Reserve(c, input, clock))
  {
    RecoverStays(c, clock);
    ReserveOnShape(RecoverAndPrune(c, clock).value, input, clock);
  }

  lemma PlanWriteStays(c: State, id: string, payload: string, days: seq<Day>, moves: seq<Move>, clock: Clock)
    ensures Stays(c, PlanWrite(c, id, payload, days, moves, clock))
  {
    ReplaceShape(c, id, payload, days, clock);
    LinkShape(ReplaceDirtyDays(c, id, payload, days, clock).state, id, payload, moves, clock);
  }

  lemma FinishDeliveryStays(c: State, id: string, payload: string, has: bool, planned: set<Day>, clock: Clock)
    ensures Stays(c, FinishDelivery(c, id, payload, has, planned, clock))
  {}

  lemma ExpireStays(c: State, id: string, payload: string, clock: Clock)
    ensures Stays(c, Expire(c, id, payload, clock))
  {}

  lemma OtherDeliveriesStay(c: State, id: string, payload: string, days: seq<Day>, clock: Clock)
    ensures Stays(c, AcquireWrite(c, id, payload, clock)) && Stays(c, ResolveIncompleteDays(c, days))
  {}

  lemma DeliveryStays(c: State, call: DeliveryCall, clock: Clock)
    requires GateInv(c) && IdleInv(c)
    ensures Stays(c, DeliveryStep(c, call, clock))
  {
    match call
    case CallReserve(input) => ReserveStays(c, input, clock);
    case CallAcquireWrite(id, payload) => OtherDeliveriesStay(c, id, payload, [], clock);
    case CallPlanWrite(id, payload, days, moves) => PlanWriteStays(c, id, payload, days, moves, clock);
    case CallLinkDirtyDays(id, payload, moves) => LinkShape(c, id, payload, moves, clock);
    case CallFinishDelivery(id, payload, has, planned) => FinishDeliveryStays(c, id, payload, has, planned, clock);
    case CallExpire(id, payload) => ExpireStays(c, id, payload, clock);
    case CallResolveIncompleteDays(days) => OtherDeliveriesStay(c, "", "", days, clock);
  }

  lemma RequestStays(c: State, clock: Clock)
    requires GateInv(c) && IdleInv(c)
    ensures Stays(c, RequestSnapshot(c, clock))
  {
    RecoverStays(c, clock);
    RequestShape(c, clock);
  }

  lemma BeginMoves(c: State, claim: string, clock: Clock)
    requires GateInv(c) && IdleInv(c)
    ensures var out := BeginSnapshot(c, claim, clock); Stays(c, out) || Began(c, out)
  {
    RecoverStays(c, clock);
    BeginShape(c, claim, clock);
  }

  lemma ManifestStays(c: State, g: int, claim: string, clock: Clock)
    requires GateInv(c) && IdleInv(c)
    ensures Stays(c, PrepareManifest(c, g, claim, clock))
  {
    RecoverShape(c, clock.now);
    ManifestShape(c, g, claim, clock);
    if PrepareManifest(c, g, claim, clock).reply.Claimed? {
      ClaimHolder(c, g, claim, clock);
    }
  }

  /** Publishing needs every Copy settled and none outstanding. */
  predicate Published(c: State, out: Outcome) {
    && Ended(c, out.state) && !out.reply.Begun?
    && (out.reply.Finished? ==>
          && c.activeGeneration == Some(out.reply.generation)
          && out.reply.cleared == CountCaptured(c, out.reply.generation)
          && Cursor(c) == CopyCount(out.reply.cleared)
          && c.intents == map[])
  }

  lemma FinishMoves(c: State, g: int, claim: string, clock: Clock)
    ensures var out := FinishSnapshot(c, g, claim, clock); Stays(c, out) || Published(c, out)
  {
    if AssertClaim(c, g, claim, clock).Ok? {
      ClaimHolder(c, g, claim, clock);
    }
  }

  lemma FailCaptureEnds(c: State, generation: int, clock: Clock)
    requires GateInv(c)
    ensures
      var out := FailCapture(c, generation, clock);
      && Plain(out.reply) && (out.reply.Refused? || Ended(c, out.state))
  {
    RecoverShape(c, clock.now);
  }

  lemma FailMoves(c: State, g: int, claim: string, reason: Option<string>, clock: Clock)
    requires GateInv(c)
    ensures
      var out := FailSnapshot(c, g, claim, reason, clock);
      Stays(c, out) || (Ended(c, out.state) && Plain(out.reply))
  {
    FailCaptureEnds(c, g, clock);
  }

  lemma FailWithEnds(c: State, key: CopyKey, generation: int, reason: string, clock: Clock)
    requires GateInv(c)
    ensures
      var out := FailWith(c.(intents := c.intents - {key}), c, generation, reason, clock);
      && Plain(out.reply) && (out.state == c || Ended(c, out.state))
  {
    FailCaptureEnds(c.(intents := c.intents - {key}), generation, clock);
  }

  lemma GateMoves(c: State, call: GateCall, clock: Clock)
    requires GateInv(c) && IdleInv(c)
    ensures var out := GateStep(c, call, clock); Stays(c, out) || Began(c, out) || Published(c, out)
  {
    match call
    case CallRequestSnapshot => RequestStays(c, clock);
    case CallBeginSnapshot(claim) => BeginMoves(c, claim, clock);
    case CallPrepareManifest(g, claim) => ManifestStays(c, g, claim, clock);
    case CallFinishSnapshot(g, claim) => FinishMoves(c, g, claim, clock);
    case CallFailSnapshot(g, claim, reason) => FailMoves(c, g, claim, reason, clock);
    case CallGetStats => RecoverStays(c, clock);
  }

  lemma ClaimStays(c: State, claim: string, clock: Clock)
    ensures Stays(c, ClaimSnapshot(c, claim, clock))
  {
    ClaimShape(c, claim, clock);
  }

  lemma SetLeaseStays(c: State, g: int, claim: string, clock: Clock, expires: int)
    ensures Stays(c, SetLease(c, g, claim, clock, expires))
  {
    SetLeaseShape(c, g, claim, clock, expires);
  }

  lemma LeaseStays(c: State, call: LeaseCall, clock: Clock)
    ensures Stays(c, LeaseStep(c, call, clock))
  {
    match call
    case CallClaimSnapshot(claim) => ClaimStays(c, claim, clock);
    case CallGetProgress(g, claim) => ReadOnlyLeaseCalls(c, g, claim, clock);
    case CallRenewClaim(g, claim) => SetLeaseStays(c, g, claim, clock, clock.now + SNAPSHOT_LEASE_MS);
    case CallReleaseClaim(g, claim) => SetLeaseStays(c, g, claim, clock, clock.now);
    case CallAssertActive(g, claim) => ReadOnlyLeaseCalls(c, g, claim, clock);
  }

  lemma SettleMoves(c: State, key: CopyKey, claim: string, i: int, job: string, ok: bool, clock: Clock)
    requires GateInv(c)
    ensures Moved(c, OnCopy(CallSettleIntent(key, claim, i, job, ok)), SettleIntent(c, key, claim, i, job, ok, clock))
  {
    SettleShape(c, key, claim, i, job, ok, clock);
    FailWithEnds(c, key, key.generation, "Snapshot Copy job " + job + " failed", clock);
    if CursorFault(c, key, claim, i, clock).None? {
      AtCursor(c, key, claim, i, clock);
    }
  }

  lemma CopyMoves(c: State, call: CopyCall, clock: Clock)
    requires GateInv(c)
    ensures Moved(c, OnCopy(call), CopyStep(c, call, clock))
  {
    match call
    case CallRecordIntent(key, claim, i, startedAt) => RecordIntentShape(c, key, claim, i, startedAt, clock);
    case CallAttachJob(key, claim, i, job) =>
      AttachToShape(c, key, job);
      AttachShape(c, key, claim, i, job, clock);
    case CallSettleIntent(key, claim, i, job, ok) => SettleMoves(c, key, claim, i, job, ok, clock);
    case CallRejectIntent(key, claim, i, reason) =>
      RejectShape(c, key, claim, i, reason, clock);
      FailWithEnds(c, key, key.generation, reason, clock);
  }

  predicate StaysOrEnds(c: State, out: Outcome) {
    Plain(out.reply) && (SameGeneration(c, out.state) || Ended(c, out.state))
  }

  lemma PrepareCheckStays(c: State, g: int, claim: string, i: nat, recovery: bool, clock: Clock)
    requires ChecksInv(c)
    ensures StaysOrEnds(c, PrepareCheck(c, g, claim, i, recovery, clock))
  {
    PrepareCheckShape(c, g, claim, i, recovery, clock);
  }

  lemma AbandonMoves(c: State, g: int, reason: string, key: CopyKey, startedAt: int, clock: Clock)
    requires GateInv(c)
    ensures StaysOrEnds(c, AbandonUnstarted(c, g, reason, key, startedAt, clock))
  {
    FailWithEnds(c, key, g, reason, clock);
  }

  lemma RecoveryMoves(c: State, call: RecoveryCall, clock: Clock)
    requires GateInv(c) && ChecksInv(c)
    ensures StaysOrEnds(c, RecoveryStep(c, call, clock))
  {
    match call
    case CallPrepareCheck(g, claim, i, recovery) => PrepareCheckStays(c, g, claim, i, recovery, clock);
    case CallRequireRecovery(g, claim) =>
    case CallAbandonUnstarted(g, reason, key, startedAt) => AbandonMoves(c, g, reason, key, startedAt, clock);
    case CallResume(g) => ResumeShape(c, g, clock);
  }

  lemma SettleErasureStays(c: State)
    requires c.erasureStartedAt.Some?
    ensures StaysOrEnds(c, SettleErasureState(c))
  {}

  lemma ErasureReadsStay(c: State, clock: Clock)
    requires GateInv(c) && IdleInv(c)
    ensures StaysOrEnds(c, BeginErasure(c, clock)) && StaysOrEnds(c, GetErasureState(c, clock))
  {
    RecoverStays(c, clock);
    var c1 := RecoverAndPrune(c, clock).value;
    SettleErasureStays(if c1.erasureStartedAt.Some? then c1 else c1.(erasureStartedAt := Some(clock.now)));
  }

  lemma ErasureMoves(c: State, call: ErasureCall, clock: Clock)
    requires GateInv(c) && IdleInv(c)
    ensures StaysOrEnds(c, ErasureStep(c, call, clock))
  {
    match call
    case CallBeginErasure => ErasureReadsStay(c, clock);
    case CallGetErasureState => ErasureReadsStay(c, clock);
    case CallAttachErasureJob(key, job) => AttachToShape(c, key, job);
    case CallSettleErasureIntent(key, job) =>
    case CallAbandonErasureSnapshot(g) => FailCaptureEnds(c, g, clock);
  }

  lemma StepMoves(c: State, call: Call, clock: Clock)
    requires Inv(c)
    ensures Moved(c, call, Step(c, call, clock))
  {
    match call
    case OnDelivery(delivery) => DeliveryStays(c, delivery, clock);
    case OnGate(gate) => GateMoves(c, gate, clock);
    case OnLease(lease) => LeaseStays(c, lease, clock);
    case OnCopy(copy) => CopyMoves(c, copy, clock);
    case OnRecovery(recovery) => RecoveryMoves(c, recovery, clock);
    case OnErasure(erasure) => ErasureMoves(c, erasure, clock);
  }

  // ---- the history of one generation ----

  /** The keys of a generation that a run settled as done, in the order it settled them. */
  ghost function SettledKeys(run: seq<Event>, generation: int): seq<CopyKey> {
    if run == [] then []
    else
      var before, last := run[..|run| - 1], run[|run| - 1];
      var reply := Step(After(before), last.call, last.clock).reply;
      if IsDone(last.call, reply) && last.call.copy.key.generation == generation
      then SettledKeys(before, generation) + [last.call.copy.key]
      else SettledKeys(before, generation)
  }

  /** The first `count` Copy keys of a generation, in cursor order. */
  function KeysUpTo(generation: int, days: nat, count: nat): seq<CopyKey>
    requires count <= CopyCount(days)
  {
    seq(count, i requires 0 <= i < count => KeyAt(generation, days, i).value)
  }

  /** What the settled keys of a generation say about the tables. */
  ghost predicate Tracks(c: State, generation: int, settled: seq<CopyKey>) {
    && (generation > c.lastGeneration ==> settled == [])
    && (c.activeGeneration == Some(generation) ==>
          && Cursor(c) <= CopyCount(CountCaptured(c, generation))
          && settled == KeysUpTo(generation, CountCaptured(c, generation), Cursor(c)))
  }

  predicate ActiveIsLast(c: State) {
    c.activeGeneration.Some? ==>
      && c.activeGeneration == Some(c.lastGeneration as int)
      && Cursor(c) <= CopyCount(CountCaptured(c, c.lastGeneration))
  }

  lemma ActiveGenerationIsLast(c: State)
    requires Inv(c)
    ensures ActiveIsLast(c)
  {}

  lemma KeysUpToNext(generation: int, days: nat, count: nat)
    requires count < CopyCount(days)
    ensures KeysUpTo(generation, days, count) + [KeyAt(generation, days, count).value] == KeysUpTo(generation, days, count + 1)
  {}

  lemma TracksStep(c: State, call: Call, out: Outcome, generation: int, settled: seq<CopyKey>)
    requires Moved(c, call, out) && ActiveIsLast(c) && ActiveIsLast(out.state)
    requires Tracks(c, generation, settled)
    ensures Tracks(out.state, generation,
      if IsDone(call, out.reply) && call.copy.key.generation == generation then settled + [call.copy.key] else settled)
  {
    if Advanced(c, call, out) && call.copy.key.generation == generation {
      KeysUpToNext(generation, CountCaptured(c, generation), Cursor(c));
    }
  }

  lemma {:induction false} HistoryHolds(run: seq<Event>, generation: int)
    ensures Tracks(After(run), generation, SettledKeys(run, generation))
  {
    if run != [] {
      var before, last := run[..|run| - 1], run[|run| - 1];
      HistoryHolds(before, generation);
      RunMoves(run, |run| - 1);
      assert run[..|run|] == run;
      TracksStep(After(before), last.call, Step(After(before), last.call, last.clock), generation, SettledKeys(before, generation));
    }
  }

  /** Event `i` of a run, seen from the generation. */
  lemma RunMoves(run: seq<Event>, i: nat)
    requires i < |run|
    ensures
      var c, c1 := After(run[..i]), After(run[..i + 1]);
      && Moved(c, run[i].call, Outcome(c1, ReplyAt(run, i))) && ActiveIsLast(c) && ActiveIsLast(c1)
  {
    ReachableInv(run[..i]);
    ReachableInv(run[..i + 1]);
    ActiveGenerationIsLast(After(run[..i]));
    ActiveGenerationIsLast(After(run[..i + 1]));
    StepMoves(After(run[..i]), run[i].call, run[i].clock);
    AfterNext(run, i);
  }

  /**
   * A generation is published only after every one of its Copy keys was settled as done, each
   * exactly once and in cursor order.
   */
  lemma FinishedMeansEveryCopySettled(run: seq<Event>, i: nat)
    requires i < |run| && ReplyAt(run, i).Finished?
    ensures
      var g, days := ReplyAt(run, i).generation, ReplyAt(run, i).cleared;
      && SettledKeys(run[..i], g) == KeysUpTo(g, days, CopyCount(days))
      && (forall k :: 0 <= k < CopyCount(days) ==> KeyAt(g, days, k) == Some(SettledKeys(run[..i], g)[k]))
      && After(run[..i]).intents == map[]
  {
    HistoryHolds(run[..i], ReplyAt(run, i).generation);
    RunMoves(run, i);
  }

  /** Whoever settles a Copy holds the claim at that moment and settles the key at the cursor. */
  lemma SettledByClaimHolder(run: seq<Event>, i: nat)
    requires i < |run| && IsDone(run[i].call, ReplyAt(run, i))
    ensures Advanced(After(run[..i]), run[i].call, Outcome(After(run[..i + 1]), Done))
  {
    RunMoves(run, i);
  }

  // ---- generations end for good ----

  /** A generation that has ended, published or not. */
  predicate Past(c: State, generation: int) {
    generation <= c.lastGeneration && c.activeGeneration != Some(generation)
  }

  /** The generation number never falls, and an ended generation stays ended. */
  lemma GenerationStep(run: seq<Event>, i: nat, generation: int)
    requires i < |run|
    ensures After(run[..i]).lastGeneration <= After(run[..i + 1]).lastGeneration
    ensures Past(After(run[..i]), generation) ==> Past(After(run[..i + 1]), generation)
  {
    RunMoves(run, i);
  }

  lemma {:induction false} PastForever(run: seq<Event>, i: nat, j: nat, generation: int)
    requires i <= j <= |run| && Past(After(run[..i]), generation)
    ensures Past(After(run[..j]), generation)
    decreases j
  {
    if i < j {
      PastForever(run, i, j - 1, generation);
      GenerationStep(run, j - 1, generation);
    }
  }

  /** A failed or abandoned generation is never finished, begun or settled again. */
  lemma EndedGenerationsStayEnded(run: seq<Event>, i: nat, j: nat, generation: int)
    requires i <= j < |run| && Past(After(run[..i]), generation)
    ensures
      var reply := ReplyAt(run, j);
      && !(reply.Finished? && reply.generation == generation)
      && !(reply.Begun? && reply.generation == generation)
      && !(IsDone(run[j].call, reply) && run[j].call.copy.key.generation == generation)
  {
    PastForever(run, i, j, generation);
    RunMoves(run, j);
  }

  lemma BegunIsNew(run: seq<Event>, i: nat)
    requires i < |run| && ReplyAt(run, i).Begun?
    ensures
      var before, after := After(run[..i]), After(run[..i + 1]);
      && Began(before, Outcome(after, ReplyAt(run, i)))
      && ReplyAt(run, i).generation == before.lastGeneration + 1
  {
    RunMoves(run, i);
  }

  lemma {:induction false} LastGenerationGrows(run: seq<Event>, i: nat, j: nat)
    requires i <= j <= |run|
    ensures After(run[..i]).lastGeneration <= After(run[..j]).lastGeneration
    decreases j
  {
    if i < j {
      LastGenerationGrows(run, i, j - 1);
      GenerationStep(run, j - 1, 0);
    }
  }

  lemma GenerationsIncrease(run: seq<Event>, i: nat, j: nat)
    requires i < j < |run| && ReplyAt(run, i).Begun? && ReplyAt(run, j).Begun?
    ensures ReplyAt(run, i).generation < ReplyAt(run, j).generation
  {
    BegunIsNew(run, i);
    BegunIsNew(run, j);
    LastGenerationGrows(run, i + 1, j);
  }

  lemma FrozenStep(run: seq<Event>, i: nat, generation: int)
    requires i < |run| && generation <= After(run[..i]).lastGeneration
    requires After(run[..i + 1]).activeGeneration == Some(generation)
    ensures After(run[..i]).activeGeneration == Some(generation)
    ensures After(run[..i]).captured == After(run[..i + 1]).captured
    ensures Cursor(After(run[..i])) <= Cursor(After(run[..i + 1]))
  {
    RunMoves(run, i);
  }

  /** While a generation is active its days, and with them its number of Copies, never change. */
  lemma {:induction false} CaptureIsFrozen(run: seq<Event>, i: nat, j: nat, generation: int)
    requires i <= j <= |run| && generation <= After(run[..i]).lastGeneration
    requires After(run[..j]).activeGeneration == Some(generation)
    ensures After(run[..i]).activeGeneration == Some(generation)
    ensures After(run[..i]).captured == After(run[..j]).captured
    ensures Cursor(After(run[..i])) <= Cursor(After(run[..j]))
    decreases j
  {
    if i < j {
      LastGenerationGrows(run, i, j - 1);
      FrozenStep(run, j - 1, generation);
      CaptureIsFrozen(run, i, j - 1, generation);
    }
  }
}
