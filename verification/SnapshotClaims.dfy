/**
 * What a claim on the active generation is worth while others act: as long as the claim still
 * stands, nobody else has moved the cursor, the capture or the Copy intents; a Copy key is recorded
 * at most once; and a prepared manifest belongs to a generation that is active or published.
 */
module SnapshotClaims {
  import opened Contract
  import opened CopyPlan
  import opened CoordinatorModel
  import opened CoordinatorInvariants
  import opened CoordinatorRuns
  import opened CoordinatorSafety
  import opened Publication
  import opened PublicationInvariants
  import opened PublicationCalls
  import opened PublicationRuns
  import DayGraph

  /** Calls made under a claim. Releasing it is not among them: it moves nothing but the lease. */
  predicate UsesClaim(call: Call, claim: string) {
    match call
    case OnGate(gate) =>
      (match gate
       case CallBeginSnapshot(c) => c == claim
       case CallPrepareManifest(_, c) => c == claim
       case CallFinishSnapshot(_, c) => c == claim
       case CallFailSnapshot(_, c, _) => c == claim
       case _ => false)
    case OnLease(lease) => lease.claim == claim && !lease.CallReleaseClaim?
    case OnCopy(copy) => copy.claim == claim
    case OnRecovery(recovery) =>
      (match recovery
       case CallPrepareCheck(_, c, _, _) => c == claim
       case CallRequireRecovery(_, c) => c == claim
       case _ => false)
    case _ => false
  }

  /** If the claim stands afterwards, it stood before and its generation has not moved. */
  ghost predicate Untouched(c: State, c1: State, claim: string) {
    forall g {:trigger HoldsClaim(c1, g, claim)} :: HoldsClaim(c1, g, claim) ==>
      && HoldsClaim(c, g, claim) && c1.progress[g] == c.progress[g]
      && c1.captured == c.captured && c1.intents == c.intents
  }

  predicate SameRun(c: State, c1: State) {
    && c1.activeGeneration == c.activeGeneration && c1.progress == c.progress && c1.intents == c.intents
    && (c.activeGeneration.Some? ==> c1.captured == c.captured)
  }

  lemma SameRunUntouched(c: State, c1: State, claim: string)
    requires SameRun(c, c1)
    ensures Untouched(c, c1, claim)
  {}

  lemma RecoverSameRun(c: State, clock: Clock)
    requires GateInv(c) && IdleInv(c)
    ensures RecoverAndPrune(c, clock).Ok? && SameRun(c, RecoverAndPrune(c, clock).value)
  {
    RecoverShape(c, clock.now);
  }

  lemma DeliverySameRun(c: State, call: DeliveryCall, clock: Clock)
    requires GateInv(c) && IdleInv(c)
    ensures SameRun(c, DeliveryStep(c, call, clock).state)
  {
    match call
    case CallReserve(input) =>
      RecoverSameRun(c, clock);
      ReserveOnShape(RecoverAndPrune(c, clock).value, input, clock);
    case CallPlanWrite(id, payload, days, moves) => PlanWriteShape(c, id, payload, days, moves, clock);
    case CallLinkDirtyDays(id, payload, moves) => LinkShape(c, id, payload, moves, clock);
    case CallResolveIncompleteDays(days) => ResolveShape(c, days);
    case CallFinishDelivery(id, payload, has, planned) => FinishDeliveryIs(c, id, payload, has, planned, clock);
    case CallExpire(id, payload) => ExpireIs(c, id, payload, clock);
    case CallAcquireWrite(id, payload) =>
  }

  lemma BeginUntouched(c: State, other: string, claim: string, clock: Clock)
    requires GateInv(c) && IdleInv(c) && other != claim
    ensures Untouched(c, BeginSnapshot(c, other, clock).state, claim)
  {
    RecoverSameRun(c, clock);
    BeginShape(c, other, clock);
  }

  lemma ManifestUntouched(c: State, g: int, other: string, claim: string, clock: Clock)
    requires GateInv(c) && IdleInv(c) && other != claim
    ensures Untouched(c, PrepareManifest(c, g, other, clock).state, claim)
  {
    RecoverShape(c, clock.now);
    ManifestShape(c, g, other, clock);
    if PrepareManifest(c, g, other, clock).reply.Claimed? {
      ClaimHolder(c, g, other, clock);
    }
  }

  lemma GateUntouched(c: State, call: GateCall, claim: string, clock: Clock)
    requires GateInv(c) && IdleInv(c) && !UsesClaim(OnGate(call), claim)
    ensures Untouched(c, GateStep(c, call, clock).state, claim)
  {
    match call
    case CallRequestSnapshot =>
      RecoverSameRun(c, clock);
      RequestShape(c, clock);
    case CallBeginSnapshot(other) => BeginUntouched(c, other, claim, clock);
    case CallPrepareManifest(g, other) => ManifestUntouched(c, g, other, claim, clock);
    case CallFinishSnapshot(g, other) => FinishOrStay(c, g, other, clock);
    case CallFailSnapshot(g, other, reason) => FailOrStay(c, g, other, reason, clock);
    case CallGetStats => RecoverSameRun(c, clock);
  }

  lemma FinishOrStay(c: State, g: int, claim: string, clock: Clock)
    ensures
      var c1 := FinishSnapshot(c, g, claim, clock).state;
      c1 == c || c1.activeGeneration.None?
  {}

  lemma FailOrStay(c: State, g: int, claim: string, reason: Option<string>, clock: Clock)
    ensures
      var c1 := FailSnapshot(c, g, claim, reason, clock).state;
      c1 == c || c1.activeGeneration.None?
  {}

  lemma LeaseUntouched(c: State, call: LeaseCall, claim: string, clock: Clock)
    requires !UsesClaim(OnLease(call), claim)
    ensures Untouched(c, LeaseStep(c, call, clock).state, claim)
  {
    match call
    case CallClaimSnapshot(other) => ClaimShape(c, other, clock);
    case CallGetProgress(g, other) => ReadOnlyLeaseCalls(c, g, other, clock);
    case CallRenewClaim(g, other) => SetLeaseShape(c, g, other, clock, clock.now + SNAPSHOT_LEASE_MS);
    case CallReleaseClaim(g, other) => SetLeaseShape(c, g, other, clock, clock.now);
    case CallAssertActive(g, other) => ReadOnlyLeaseCalls(c, g, other, clock);
  }

  lemma FailWithOrStay(c: State, key: CopyKey, g: int, reason: string, clock: Clock)
    ensures
      var c1 := FailWith(c.(intents := c.intents - {key}), c, g, reason, clock).state;
      c1 == c || c1.activeGeneration.None?
  {}

  lemma CopyUntouched(c: State, call: CopyCall, claim: string, clock: Clock)
    requires call.claim != claim
    ensures Untouched(c, CopyStep(c, call, clock).state, claim)
  {
    if CursorFault(c, call.key, call.claim, call.copyIndex, clock).None? {
      AtCursor(c, call.key, call.claim, call.copyIndex, clock);
    }
    match call
    case CallRecordIntent(key, other, i, startedAt) => RecordIntentShape(c, key, other, i, startedAt, clock);
    case CallAttachJob(key, other, i, job) =>
      AttachToShape(c, key, job);
      AttachShape(c, key, other, i, job, clock);
    case CallSettleIntent(key, other, i, job, ok) =>
      SettleShape(c, key, other, i, job, ok, clock);
      FailWithOrStay(c, key, key.generation, "Snapshot Copy job " + job + " failed", clock);
    case CallRejectIntent(key, other, i, reason) =>
      RejectShape(c, key, other, i, reason, clock);
      FailWithOrStay(c, key, key.generation, reason, clock);
  }

  lemma RecoveryUntouched(c: State, call: RecoveryCall, claim: string, clock: Clock)
    requires ChecksInv(c)
    ensures Untouched(c, RecoveryStep(c, call, clock).state, claim)
  {
    match call
    case CallPrepareCheck(g, other, i, recovery) => PrepareCheckShape(c, g, other, i, recovery, clock);
    case CallRequireRecovery(g, other) =>
    case CallAbandonUnstarted(g, reason, key, startedAt) => AbandonOrStay(c, g, reason, key, startedAt, clock);
    case CallResume(g) => ResumeShape(c, g, clock);
  }

  lemma AbandonOrStay(c: State, g: int, reason: string, key: CopyKey, startedAt: int, clock: Clock)
    ensures
      var c1 := AbandonUnstarted(c, g, reason, key, startedAt, clock).state;
      c1 == c || c1.activeGeneration.None?
  {}

  /** No erasure has begun, and the call begins none. */
  predicate Unfenced(c: State, call: Call) {
    call.OnErasure? ==> c.erasureStartedAt.None? && !call.erasure.CallBeginErasure?
  }

  lemma UnfencedSameRun(c: State, call: ErasureCall, clock: Clock)
    requires GateInv(c) && IdleInv(c) && Unfenced(c, OnErasure(call))
    ensures SameRun(c, ErasureStep(c, call, clock).state)
  {
    RecoverSameRun(c, clock);
  }

  lemma OtherCallUntouched(c: State, call: Call, claim: string, clock: Clock)
    requires Inv(c) && !UsesClaim(call, claim) && Unfenced(c, call)
    ensures Untouched(c, Step(c, call, clock).state, claim)
  {
    match call
    case OnDelivery(delivery) =>
      DeliverySameRun(c, delivery, clock);
      SameRunUntouched(c, Step(c, call, clock).state, claim);
    case OnGate(gate) => GateUntouched(c, gate, claim, clock);
    case OnLease(lease) => LeaseUntouched(c, lease, claim, clock);
    case OnCopy(copy) => CopyUntouched(c, copy, claim, clock);
    case OnRecovery(recovery) => RecoveryUntouched(c, recovery, claim, clock);
    case OnErasure(erasure) =>
      UnfencedSameRun(c, erasure, clock);
      SameRunUntouched(c, Step(c, call, clock).state, claim);
  }

  // ---- a Copy key is recorded once ----

  /** A call drops a Copy intent only by settling it at the cursor or by ending the generation. */
  predicate KeepsIntents(c: State, call: Call, c1: State, reply: Reply) {
    c.intents.Keys <= c1.intents.Keys || c1.activeGeneration.None? || IsDone(call, reply)
  }

  lemma GateKeepsIntents(c: State, call: GateCall, clock: Clock)
    requires GateInv(c) && IdleInv(c)
    ensures KeepsIntents(c, OnGate(call), GateStep(c, call, clock).state, GateStep(c, call, clock).reply)
  {
    match call
    case CallRequestSnapshot =>
      RecoverSameRun(c, clock);
      RequestShape(c, clock);
    case CallBeginSnapshot(claim) =>
      RecoverSameRun(c, clock);
      BeginShape(c, claim, clock);
    case CallPrepareManifest(g, claim) =>
      RecoverShape(c, clock.now);
      ManifestShape(c, g, claim, clock);
    case CallFinishSnapshot(g, claim) => FinishOrStay(c, g, claim, clock);
    case CallFailSnapshot(g, claim, reason) => FailOrStay(c, g, claim, reason, clock);
    case CallGetStats => RecoverSameRun(c, clock);
  }

  lemma LeaseKeepsIntents(c: State, call: LeaseCall, clock: Clock)
    ensures LeaseStep(c, call, clock).state.intents == c.intents
  {
    match call
    case CallClaimSnapshot(claim) => ClaimShape(c, claim, clock);
    case CallGetProgress(g, claim) => ReadOnlyLeaseCalls(c, g, claim, clock);
    case CallRenewClaim(g, claim) => SetLeaseShape(c, g, claim, clock, clock.now + SNAPSHOT_LEASE_MS);
    case CallReleaseClaim(g, claim) => SetLeaseShape(c, g, claim, clock, clock.now);
    case CallAssertActive(g, claim) => ReadOnlyLeaseCalls(c, g, claim, clock);
  }

  lemma CopyKeepsIntents(c: State, call: CopyCall, clock: Clock)
    ensures KeepsIntents(c, OnCopy(call), CopyStep(c, call, clock).state, CopyStep(c, call, clock).reply)
  {
    match call
    case CallRecordIntent(key, claim, i, startedAt) => RecordIntentShape(c, key, claim, i, startedAt, clock);
    case CallAttachJob(key, claim, i, job) =>
      AttachToShape(c, key, job);
      AttachShape(c, key, claim, i, job, clock);
    case CallSettleIntent(key, claim, i, job, ok) =>
      SettleShape(c, key, claim, i, job, ok, clock);
      FailWithOrStay(c, key, key.generation, "Snapshot Copy job " + job + " failed", clock);
    case CallRejectIntent(key, claim, i, reason) =>
      RejectShape(c, key, claim, i, reason, clock);
      FailWithOrStay(c, key, key.generation, reason, clock);
  }

  lemma RecoveryKeepsIntents(c: State, call: RecoveryCall, clock: Clock)
    requires ChecksInv(c)
    ensures KeepsIntents(c, OnRecovery(call), RecoveryStep(c, call, clock).state, RecoveryStep(c, call, clock).reply)
  {
    match call
    case CallPrepareCheck(g, claim, i, recovery) => PrepareCheckShape(c, g, claim, i, recovery, clock);
    case CallRequireRecovery(g, claim) =>
    case CallAbandonUnstarted(g, reason, key, startedAt) => AbandonOrStay(c, g, reason, key, startedAt, clock);
    case CallResume(g) => ResumeShape(c, g, clock);
  }

  lemma StepKeepsIntents(c: State, call: Call, clock: Clock)
    requires Inv(c) && !call.OnErasure?
    ensures KeepsIntents(c, call, Step(c, call, clock).state, Step(c, call, clock).reply)
  {
    match call
    case OnDelivery(delivery) => DeliverySameRun(c, delivery, clock);
    case OnGate(gate) => GateKeepsIntents(c, gate, clock);
    case OnLease(lease) => LeaseKeepsIntents(c, lease, clock);
    case OnCopy(copy) => CopyKeepsIntents(c, copy, clock);
    case OnRecovery(recovery) => RecoveryKeepsIntents(c, recovery, clock);
  }

  /** The key of a position that the cursor of the active generation has passed. */
  predicate Settled(c: State, key: CopyKey) {
    && c.activeGeneration == Some(key.generation)
    && exists i: nat :: i < Cursor(c) && KeyAt(key.generation, CountCaptured(c, key.generation), i) == Some(key)
  }

  /** A key that was recorded before: outstanding, settled, of an ended generation, or fenced off. */
  predicate Used(c: State, key: CopyKey) {
    key in c.intents || Settled(c, key) || Past(c, key.generation) || c.erasureStartedAt.Some?
  }

  lemma SettledStays(c: State, call: Call, out: Outcome, key: CopyKey)
    requires Moved(c, call, out) && ActiveIsLast(c) && Settled(c, key)
    ensures Settled(out.state, key) || Past(out.state, key.generation)
  {
    var i: nat :| i < Cursor(c) && KeyAt(key.generation, CountCaptured(c, key.generation), i) == Some(key);
    if SameGeneration(c, out.state) || Advanced(c, call, out) {
      assert i < Cursor(out.state) && KeyAt(key.generation, CountCaptured(out.state, key.generation), i) == Some(key);
    }
  }

  /** The outstanding key stays, or its settlement moves the cursor past it, or its generation ends. */
  lemma IntentMoves(c: State, call: Call, out: Outcome, key: CopyKey)
    requires Moved(c, call, out) && KeepsIntents(c, call, out.state, out.reply)
    requires key in c.intents && c.activeGeneration == Some(key.generation) && key.generation <= c.lastGeneration
    requires KeyAt(key.generation, CountCaptured(c, key.generation), Cursor(c)) == Some(key)
    ensures Used(out.state, key)
  {
    if key !in out.state.intents && IsDone(call, out.reply) {
      var i := Cursor(c);
      assert i < Cursor(out.state) && KeyAt(key.generation, CountCaptured(out.state, key.generation), i) == Some(key);
    }
  }

  lemma IntentStays(c: State, call: Call, clock: Clock, key: CopyKey)
    requires Inv(c) && key in c.intents && !call.OnErasure?
    ensures Used(Step(c, call, clock).state, key)
  {
    StepMoves(c, call, clock);
    StepKeepsIntents(c, call, clock);
    ActiveGenerationIsLast(c);
    IntentIsAtCursor(c, key);
    IntentMoves(c, call, Step(c, call, clock), key);
  }

  lemma IntentIsAtCursor(c: State, key: CopyKey)
    requires Inv(c) && key in c.intents
    ensures c.activeGeneration == Some(key.generation)
    ensures KeyAt(key.generation, CountCaptured(c, key.generation), Cursor(c)) == Some(key)
  {}

  /** Only a fenced organization's intents are settled outside the cursor. */
  lemma ErasureKeepsIntent(c: State, call: ErasureCall, clock: Clock, key: CopyKey)
    requires Inv(c) && key in c.intents
    ensures key in ErasureStep(c, call, clock).state.intents || c.erasureStartedAt.Some?
  {
    match call
    case CallBeginErasure => ErasureReadKeepsIntents(c, clock);
    case CallGetErasureState => ErasureReadKeepsIntents(c, clock);
    case CallAttachErasureJob(k, job) =>
    case CallSettleErasureIntent(k, job) =>
    case CallAbandonErasureSnapshot(g) =>
  }

  lemma ErasureReadKeepsIntents(c: State, clock: Clock)
    requires GateInv(c) && IdleInv(c)
    ensures BeginErasure(c, clock).state.intents == c.intents && GetErasureState(c, clock).state.intents == c.intents
  {
    RecoverSameRun(c, clock);
  }

  lemma UsedStep(c: State, call: Call, clock: Clock, key: CopyKey)
    requires Inv(c) && Used(c, key)
    ensures Used(Step(c, call, clock).state, key)
  {
    if key in c.intents && call.OnErasure? {
      ErasureKeepsIntent(c, call.erasure, clock, key);
      StepEffects(c, call, clock);
    } else if key in c.intents {
      IntentStays(c, call, clock, key);
    } else {
      StepMoves(c, call, clock);
      StepEffects(c, call, clock);
      ActiveGenerationIsLast(c);
      if Settled(c, key) {
        SettledStays(c, call, Step(c, call, clock), key);
      }
    }
  }

  predicate Records(call: Call, reply: Reply, key: CopyKey) {
    call.OnCopy? && call.copy.CallRecordIntent? && call.copy.key == key && reply == Done
  }

  lemma RecordedIsNew(c: State, call: Call, clock: Clock, key: CopyKey)
    requires Inv(c) && Records(call, Step(c, call, clock).reply, key)
    ensures !Used(c, key) && Used(Step(c, call, clock).state, key)
  {
    var copy := call.copy;
    RecordIntentShape(c, key, copy.claim, copy.copyIndex, copy.startedAt, clock);
    AtCursor(c, key, copy.claim, copy.copyIndex, clock);
    forall i: nat | KeyAt(key.generation, CountCaptured(c, key.generation), i) == Some(key) ensures i == Cursor(c) {
      KeysAreDistinct(key.generation, CountCaptured(c, key.generation), i, Cursor(c));
    }
  }

  lemma {:induction false} UsedForever(run: seq<Event>, i: nat, j: nat, key: CopyKey)
    requires i <= j <= |run| && Used(After(run[..i]), key)
    ensures Used(After(run[..j]), key)
    decreases j
  {
    if i < j {
      UsedForever(run, i, j - 1, key);
      ReachableInv(run[..j - 1]);
      UsedStep(After(run[..j - 1]), run[j - 1].call, run[j - 1].clock, key);
      AfterNext(run, j - 1);
    }
  }

  /** No Copy key is ever recorded twice, so a runner that starts a Copy it recorded starts it once. */
  lemma KeysAreRecordedOnce(run: seq<Event>, i: nat, j: nat, key: CopyKey)
    requires i < |run| && j < |run|
    requires Records(run[i].call, ReplyAt(run, i), key) && Records(run[j].call, ReplyAt(run, j), key)
    ensures i == j
  {
    if i < j {
      RecordedBefore(run, i, j, key);
    } else if j < i {
      RecordedBefore(run, j, i, key);
    }
  }

  lemma RecordedBefore(run: seq<Event>, i: nat, j: nat, key: CopyKey)
    requires i < j < |run| && Records(run[i].call, ReplyAt(run, i), key)
    ensures !Records(run[j].call, ReplyAt(run, j), key)
  {
    ReachableInv(run[..i]);
    ReachableInv(run[..j]);
    RecordedIsNew(After(run[..i]), run[i].call, run[i].clock, key);
    AfterNext(run, i);
    UsedForever(run, i + 1, j, key);
    if Records(run[j].call, ReplyAt(run, j), key) {
      RecordedIsNew(After(run[..j]), run[j].call, run[j].clock, key);
      assert false;
    }
  }

  // ---- a prepared manifest ----

  /** The manifest of the active generation has its timestamp. */
  predicate Stamped(c: State, g: int) {
    c.activeGeneration == Some(g) && g in c.progress && c.progress[g].manifestAt.Some?
  }

  lemma DeliveryKeepsStamp(c: State, call: DeliveryCall, clock: Clock, g: int)
    requires GateInv(c) && IdleInv(c) && Stamped(c, g)
    ensures Stamped(DeliveryStep(c, call, clock).state, g)
  {
    DeliverySameRun(c, call, clock);
  }

  /** A stamped generation has no Copy left to fail. */
  lemma StampedIsCopied(c: State, g: int)
    requires GenerationInv(c) && Stamped(c, g)
    ensures Cursor(c) == CopyCount(CountCaptured(c, g)) && c.intents == map[]
  {
    assert KeyAt(g, CountCaptured(c, g), Cursor(c)) == None;
    assert c.intents.Keys == {};
  }

  lemma GateKeepsStamp(c: State, call: GateCall, clock: Clock, g: int)
    requires GateInv(c) && IdleInv(c) && Stamped(c, g) && !call.CallFinishSnapshot?
    requires call.CallFailSnapshot? ==> !HoldsClaim(c, call.generation, call.claim)
    ensures Stamped(GateStep(c, call, clock).state, g)
  {
    match call
    case CallRequestSnapshot =>
      RecoverSameRun(c, clock);
      RequestShape(c, clock);
    case CallBeginSnapshot(claim) =>
      RecoverSameRun(c, clock);
      BeginShape(c, claim, clock);
    case CallPrepareManifest(h, claim) => ManifestKeepsStamp(c, h, claim, clock, g);
    case CallFailSnapshot(h, claim, reason) =>
      if AssertClaim(c, h, claim, clock).Ok? {
        ClaimHolder(c, h, claim, clock);
      }
    case CallGetStats => RecoverSameRun(c, clock);
  }

  lemma ManifestKeepsStamp(c: State, h: int, claim: string, clock: Clock, g: int)
    requires GateInv(c) && IdleInv(c) && Stamped(c, g)
    ensures Stamped(PrepareManifest(c, h, claim, clock).state, g)
  {
    RecoverShape(c, clock.now);
    ManifestShape(c, h, claim, clock);
    if AssertClaim(c, h, claim, clock).Ok? {
      ClaimHolder(c, h, claim, clock);
    }
  }

  lemma LeaseKeepsStamp(c: State, call: LeaseCall, clock: Clock, g: int)
    requires Stamped(c, g)
    ensures Stamped(LeaseStep(c, call, clock).state, g)
  {
    match call
    case CallClaimSnapshot(claim) => ClaimShape(c, claim, clock);
    case CallGetProgress(h, claim) => ReadOnlyLeaseCalls(c, h, claim, clock);
    case CallRenewClaim(h, claim) => SetLeaseShape(c, h, claim, clock, clock.now + SNAPSHOT_LEASE_MS);
    case CallReleaseClaim(h, claim) => SetLeaseShape(c, h, claim, clock, clock.now);
    case CallAssertActive(h, claim) => ReadOnlyLeaseCalls(c, h, claim, clock);
  }

  /** Without an outstanding intent, Copy calls and operators cannot end the generation. */
  lemma CopyKeepsStamp(c: State, call: CopyCall, clock: Clock, g: int)
    requires Stamped(c, g) && c.intents == map[]
    ensures Stamped(CopyStep(c, call, clock).state, g)
  {
    match call
    case CallRecordIntent(key, claim, i, startedAt) => RecordIntentShape(c, key, claim, i, startedAt, clock);
    case CallAttachJob(key, claim, i, job) =>
      AttachToShape(c, key, job);
      AttachShape(c, key, claim, i, job, clock);
    case CallSettleIntent(key, claim, i, job, ok) => SettleShape(c, key, claim, i, job, ok, clock);
    case CallRejectIntent(key, claim, i, reason) => RejectShape(c, key, claim, i, reason, clock);
  }

  lemma RecoveryKeepsStamp(c: State, call: RecoveryCall, clock: Clock, g: int)
    requires ChecksInv(c) && Stamped(c, g) && c.intents == map[]
    ensures Stamped(RecoveryStep(c, call, clock).state, g)
  {
    match call
    case CallPrepareCheck(h, claim, i, recovery) => PrepareCheckShape(c, h, claim, i, recovery, clock);
    case CallRequireRecovery(h, claim) =>
    case CallAbandonUnstarted(h, reason, key, startedAt) => assert key !in c.intents;
    case CallResume(h) => ResumeShape(c, h, clock);
  }

  lemma StepKeepsStamp(c: State, call: Call, clock: Clock, g: int)
    requires Inv(c) && Stamped(c, g) && Unfenced(c, call) && !(call.OnGate? && call.gate.CallFinishSnapshot?)
    requires call.OnGate? && call.gate.CallFailSnapshot? ==> !HoldsClaim(c, call.gate.generation, call.gate.claim)
    ensures Stamped(Step(c, call, clock).state, g)
  {
    StampedIsCopied(c, g);
    match call
    case OnDelivery(delivery) => DeliveryKeepsStamp(c, delivery, clock, g);
    case OnGate(gate) => GateKeepsStamp(c, gate, clock, g);
    case OnLease(lease) => LeaseKeepsStamp(c, lease, clock, g);
    case OnCopy(copy) => CopyKeepsStamp(c, copy, clock, g);
    case OnRecovery(recovery) => RecoveryKeepsStamp(c, recovery, clock, g);
    case OnErasure(erasure) => UnfencedSameRun(c, erasure, clock);
  }

  /** The manifest of a generation may land: it is stamped, or was published before. */
  predicate Publishable(w: World, g: int) {
    Stamped(w.c, g) || g in w.manifests
  }

  lemma FinishOnlyActive(c: State, g: int, claim: string, clock: Clock, h: int)
    requires Stamped(c, h) && g != h
    ensures FinishSnapshot(c, g, claim, clock).state == c
  {}

  lemma ServeKeepsPublishable(w: World, call: Call, clock: Clock, g: int)
    requires Inv(w.c) && w.c.erasureStartedAt.None? && Publishable(w, g) && Allowed(w, call)
    ensures Publishable(AfterServe(w, call, clock), g)
  {
    if g !in w.manifests {
      if call.OnGate? && call.gate.CallFinishSnapshot? {
        FinishOnlyActive(w.c, call.gate.generation, call.gate.claim, clock, g);
      } else {
        StampedIsCopied(w.c, g);
        StepKeepsStamp(w.c, call, clock, g);
      }
    }
  }

  /**
   * A manifest that was stamped can land at any later time, even after its runner gave up on it: its
   * generation is still active then, or has been published by another runner.
   */
  lemma PublishableStays(w: World, a: Action, g: int)
    requires WorldInv(w) && Enabled(w, a) && Publishable(w, g)
    ensures Publishable(Next(w, a), g)
  {
    match a
    case Serve(call, clock) => ServeKeepsPublishable(w, call, clock, g);
    case Publish => PublishAdds(w);
    case _ =>
  }

  lemma PublishAdds(w: World)
    requires ManifestReady(w.c)
    ensures AfterPublish(w).c == w.c && w.manifests <= AfterPublish(w).manifests
  {}

  // ---- what others may have done meanwhile ----

  predicate OtherAction(a: Action, claim: string) {
    a.Serve? ==> !UsesClaim(a.call, claim)
  }

  ghost predicate Others(run: seq<Action>, claim: string) {
    forall a :: a in run ==> OtherAction(a, claim)
  }

  /** What a claim holder knows of a later world: nothing under the claim has moved, if it stands. */
  ghost predicate Since(w: World, w': World, claim: string) {
    && w'.oldest == w.oldest && w'.today == w.today && w.manifests <= w'.manifests
    && Untouched(w.c, w'.c, claim)
    && (forall g {:trigger HoldsClaim(w'.c, g, claim)} :: HoldsClaim(w'.c, g, claim) && w.jobDone ==> w'.jobDone)
    && (forall g {:trigger Past(w'.c, g)} :: Past(w.c, g) ==> Past(w'.c, g))
    && (forall g {:trigger Publishable(w', g)} :: Publishable(w, g) ==> Publishable(w', g))
  }

  lemma SinceNow(w: World, claim: string)
    ensures Since(w, w, claim)
  {}

  lemma SinceTrans(a: World, b: World, c: World, claim: string)
    requires Since(a, b, claim) && Since(b, c, claim)
    ensures Since(a, c, claim)
  {
    forall g | HoldsClaim(c.c, g, claim)
      ensures HoldsClaim(a.c, g, claim) && c.c.progress[g] == a.c.progress[g]
      ensures c.c.captured == a.c.captured && c.c.intents == a.c.intents && (a.jobDone ==> c.jobDone)
    {
      assert HoldsClaim(b.c, g, claim);
    }
    forall g | Past(a.c, g) ensures Past(c.c, g) {
      assert Past(b.c, g);
    }
    forall g | Publishable(a, g) ensures Publishable(c, g) {
      assert Publishable(b, g);
    }
  }

  lemma PastStays(w: World, a: Action, g: int)
    requires WorldInv(w) && Enabled(w, a) && Past(w.c, g)
    ensures Past(Next(w, a).c, g)
  {
    if a.Serve? {
      StepMoves(w.c, a.call, a.clock);
    }
  }

  lemma ServeSince(w: World, call: Call, clock: Clock, claim: string)
    requires Inv(w.c) && w.c.erasureStartedAt.None? && Allowed(w, call) && !UsesClaim(call, claim)
    ensures
      var w' := AfterServe(w, call, clock);
      && Untouched(w.c, w'.c, claim)
      && forall g {:trigger HoldsClaim(w'.c, g, claim)} :: HoldsClaim(w'.c, g, claim) && w.jobDone ==> w'.jobDone
  {
    OtherCallUntouched(w.c, call, claim, clock);
  }

  lemma OtherActionSince(w: World, a: Action, claim: string)
    requires WorldInv(w) && Enabled(w, a) && OtherAction(a, claim)
    ensures Since(w, Next(w, a), claim)
  {
    var w' := Next(w, a);
    forall g | Past(w.c, g) ensures Past(w'.c, g) {
      PastStays(w, a, g);
    }
    forall g | Publishable(w, g) ensures Publishable(w', g) {
      PublishableStays(w, a, g);
    }
    if a.Serve? {
      ServeSince(w, a.call, a.clock, claim);
    }
  }

  lemma {:induction false} RunAppend(w: World, run: seq<Action>, a: Action)
    requires IsRun(w, run) && Enabled(End(w, run), a)
    ensures IsRun(w, run + [a]) && End(w, run + [a]) == Next(End(w, run), a)
    decreases |run|
  {
    if run == [] {
      assert run + [a] == [a] && [a][1..] == [];
    } else {
      assert (run + [a])[1..] == run[1..] + [a];
      RunAppend(Next(w, run[0]), run[1..], a);
    }
  }

  lemma ReachableNext(w: World, a: Action)
    requires Reachable(w) && Enabled(w, a)
    ensures Reachable(Next(w, a))
  {
    var oldest, today, run :| IsRun(Start(oldest, today), run) && w == End(Start(oldest, today), run);
    RunAppend(Start(oldest, today), run, a);
    assert IsRun(Start(oldest, today), run + [a]);
  }

  /** Whatever others do in a pause, a claim that stands after it has lost nothing. */
  lemma {:induction false} OthersSince(w: World, run: seq<Action>, claim: string)
    requires Reachable(w) && IsRun(w, run) && Others(run, claim)
    ensures Reachable(End(w, run)) && Since(w, End(w, run), claim)
    decreases |run|
  {
    if run == [] {
      SinceNow(w, claim);
    } else {
      var next := Next(w, run[0]);
      ReachableWorldInv(w);
      OtherActionSince(w, run[0], claim);
      ReachableNext(w, run[0]);
      OthersSince(next, run[1..], claim);
      SinceTrans(w, next, End(w, run), claim);
    }
  }

  // ---- the holder's own calls ----

  /** Calls that neither take a claim nor end a generation by themselves. */
  predicate Quiet(call: Call) {
    match call
    case OnGate(gate) => gate.CallPrepareManifest? || gate.CallGetStats?
    case OnLease(lease) => !lease.CallClaimSnapshot?
    case OnCopy(_) => true
    case OnRecovery(_) => true
    case _ => false
  }

  ghost predicate SameHolder(c: State, c1: State) {
    forall g, claim {:trigger HoldsClaim(c1, g, claim)} :: HoldsClaim(c1, g, claim) ==>
      HoldsClaim(c, g, claim) && c1.captured == c.captured
  }

  lemma ManifestKeepsHolder(c: State, g: int, claim: string, clock: Clock)
    requires GateInv(c) && IdleInv(c)
    ensures SameHolder(c, PrepareManifest(c, g, claim, clock).state)
  {
    RecoverShape(c, clock.now);
    ManifestShape(c, g, claim, clock);
    if PrepareManifest(c, g, claim, clock).reply.Claimed? {
      ClaimHolder(c, g, claim, clock);
    }
  }

  lemma LeaseKeepsHolder(c: State, call: LeaseCall, clock: Clock)
    requires !call.CallClaimSnapshot?
    ensures SameHolder(c, LeaseStep(c, call, clock).state)
  {
    match call
    case CallGetProgress(g, claim) => ReadOnlyLeaseCalls(c, g, claim, clock);
    case CallRenewClaim(g, claim) => SetLeaseShape(c, g, claim, clock, clock.now + SNAPSHOT_LEASE_MS);
    case CallReleaseClaim(g, claim) => SetLeaseShape(c, g, claim, clock, clock.now);
    case CallAssertActive(g, claim) => ReadOnlyLeaseCalls(c, g, claim, clock);
  }

  lemma CopyKeepsHolder(c: State, call: CopyCall, clock: Clock)
    ensures SameHolder(c, CopyStep(c, call, clock).state)
  {
    match call
    case CallRecordIntent(key, claim, i, startedAt) => RecordIntentShape(c, key, claim, i, startedAt, clock);
    case CallAttachJob(key, claim, i, job) =>
      AttachToShape(c, key, job);
      AttachShape(c, key, claim, i, job, clock);
    case CallSettleIntent(key, claim, i, job, ok) =>
      SettleShape(c, key, claim, i, job, ok, clock);
      FailWithOrStay(c, key, key.generation, "Snapshot Copy job " + job + " failed", clock);
    case CallRejectIntent(key, claim, i, reason) =>
      RejectShape(c, key, claim, i, reason, clock);
      FailWithOrStay(c, key, key.generation, reason, clock);
  }

  lemma QuietKeepsHolder(c: State, call: Call, clock: Clock)
    requires Inv(c) && Quiet(call)
    ensures SameHolder(c, Step(c, call, clock).state)
  {
    match call
    case OnGate(gate) =>
      if gate.CallGetStats? {
        RecoverSameRun(c, clock);
      } else {
        ManifestKeepsHolder(c, gate.generation, gate.claim, clock);
      }
    case OnLease(lease) => LeaseKeepsHolder(c, lease, clock);
    case OnCopy(copy) => CopyKeepsHolder(c, copy, clock);
    case OnRecovery(recovery) =>
      forall g, claim | HoldsClaim(Step(c, call, clock).state, g, claim)
        ensures HoldsClaim(c, g, claim) && Step(c, call, clock).state.captured == c.captured
      {
        RecoveryUntouched(c, recovery, claim, clock);
      }
  }
}
