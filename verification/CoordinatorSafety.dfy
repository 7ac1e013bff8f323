/**
 * Safety of the coordinator over whole runs, seen from the deliveries, the dirty marks, the Copy
 * intents and the erasure fence.
 */
module CoordinatorSafety {
  import opened Contract
  import opened CopyPlan
  import opened CoordinatorModel
  import opened CoordinatorInvariants
  import opened CoordinatorRuns
  import DayGraph

  // ---- what one call may change ----

  /** The delivery a call is about. */
  predicate Names(call: Call, id: string) {
    call.OnDelivery? &&
    match call.delivery
    case CallPlanWrite(other, _, _, _) => other == id
    case CallLinkDirtyDays(other, _, _) => other == id
    case CallFinishDelivery(other, _, _, _) => other == id
    case CallExpire(other, _) => other == id
    case _ => false
  }

  predicate Leaves(call: Call, id: string) {
    call.OnDelivery? &&
    match call.delivery
    case CallFinishDelivery(other, _, has, _) => has && other == id
    case CallExpire(other, _) => other == id
    case _ => false
  }

  /** A delivery keeps its sequence number, and only calls that name it change it or remove it. */
  predicate ActiveMoved(c: State, call: Call, c1: State) {
    && c.lastSequence <= c1.lastSequence
    && (forall id :: id in c1.active && id in c.active ==>
          && c1.active[id] == c.active[id].(days := c1.active[id].days)
          && (c1.active[id] == c.active[id] || Names(call, id)))
    && (forall id :: id in c1.active && id !in c.active ==>
          c1.active[id].sequence > c.lastSequence && c.erasureStartedAt.None?)
    && (forall id :: id in c.active && id !in c1.active ==> Leaves(call, id))
  }

  predicate IntentsMoved(c: State, call: Call, c1: State) {
    forall k :: k in c1.intents && k !in c.intents ==>
      && call.OnCopy? && call.copy.CallRecordIntent? && call.copy.key == k
      && c.erasureStartedAt.None? && c.activeGeneration == Some(k.generation)
  }

  predicate DirtyKept(c: State, c1: State, clock: Clock) {
    forall d :: d in c.dirty && clock.Retains(d) ==> d in c1.dirty
  }

  /** Only publishing its capture, or a completed erasure, clears the mark of a retained day. */
  predicate MarksMoved(c: State, clock: Clock, out: Outcome) {
    forall d :: d in c.dirty && clock.Retains(d) && d !in out.state.dirty ==>
      || (out.reply.Finished? && out.reply.generation in c.captured && d in c.captured[out.reply.generation])
      || (out.reply.Erasure? && out.reply.ready)
  }

  predicate Effects(c: State, call: Call, clock: Clock, out: Outcome) {
    && ActiveMoved(c, call, out.state)
    && IntentsMoved(c, call, out.state)
    && MarksMoved(c, clock, out)
    && (c.erasureStartedAt.Some? ==> out.state.erasureStartedAt == c.erasureStartedAt)
  }

  /** The day tables lose nothing but what left the retained window. */
  predicate DaysKept(c: State, c1: State, clock: Clock) {
    && c1.dirty <= c.dirty && c1.incomplete <= c.incomplete && c1.links <= c.links
    && DirtyKept(c, c1, clock)
    && (forall d :: d in c.incomplete && clock.Retains(d) ==> d in c1.incomplete)
    && (forall l :: l in c.links && clock.Retains(l.a) && clock.Retains(l.b) ==> l in c1.links)
  }

  /** Calls that touch no delivery, add no intent and clear no retained mark. */
  predicate Frame(c: State, c1: State, clock: Clock) {
    && c1.active == c.active && c1.lastSequence == c.lastSequence
    && c1.intents.Keys <= c.intents.Keys
    && c1.erasureStartedAt == c.erasureStartedAt
    && DaysKept(c, c1, clock)
  }

  lemma FrameEffects(c: State, call: Call, clock: Clock, out: Outcome)
    requires Frame(c, out.state, clock)
    ensures Effects(c, call, clock, out)
  {}

  lemma RecoverFrame(c: State, clock: Clock)
    requires GateInv(c)
    ensures RecoverGate(c, clock.now).Ok? && Frame(c, RecoverGate(c, clock.now).value, clock)
    ensures RecoverAndPrune(c, clock).Ok? && Frame(c, RecoverAndPrune(c, clock).value, clock)
  {
    RecoverShape(c, clock.now);
  }

  lemma LeaveEffects(c: State, call: Call, clock: Clock, id: string, incomplete: set<Day>, reply: Reply)
    requires id in c.active && Leaves(call, id)
    ensures Effects(c, call, clock,
      Outcome(Prune(c.(dirty := c.dirty + c.active[id].days, incomplete := incomplete, active := c.active - {id}), clock), reply))
  {}

  lemma ReserveEffects(c: State, input: ReserveInput, clock: Clock)
    requires GateInv(c)
    ensures Effects(c, OnDelivery(CallReserve(input)), clock, Reserve(c, input, clock))
  {
    RecoverFrame(c, clock);
    ReserveOnShape(RecoverAndPrune(c, clock).value, input, clock);
  }

  lemma PlanWriteEffects(c: State, id: string, payload: string, days: seq<Day>, moves: seq<Move>, clock: Clock)
    ensures Effects(c, OnDelivery(CallPlanWrite(id, payload, days, moves)), clock,
      PlanWrite(c, id, payload, days, moves, clock))
  {
    PlanWriteShape(c, id, payload, days, moves, clock);
  }

  lemma LinkEffects(c: State, id: string, payload: string, moves: seq<Move>, clock: Clock)
    ensures Effects(c, OnDelivery(CallLinkDirtyDays(id, payload, moves)), clock, LinkDirtyDays(c, id, payload, moves, clock))
  {
    LinkShape(c, id, payload, moves, clock);
  }

  lemma FinishDeliveryEffects(c: State, id: string, payload: string, has: bool, planned: set<Day>, clock: Clock)
    ensures Effects(c, OnDelivery(CallFinishDelivery(id, payload, has, planned)), clock,
      FinishDelivery(c, id, payload, has, planned, clock))
  {
    var call := OnDelivery(CallFinishDelivery(id, payload, has, planned));
    var out := FinishDelivery(c, id, payload, has, planned, clock);
    if out.state == c {
      FrameEffects(c, call, clock, out);
    } else {
      LeaveEffects(c, call, clock, id, c.incomplete, out.reply);
    }
  }

  lemma ExpireEffects(c: State, id: string, payload: string, clock: Clock)
    ensures Effects(c, OnDelivery(CallExpire(id, payload)), clock, Expire(c, id, payload, clock))
  {
    var call := OnDelivery(CallExpire(id, payload));
    var out := Expire(c, id, payload, clock);
    if out.state == c {
      FrameEffects(c, call, clock, out);
    } else {
      LeaveEffects(c, call, clock, id, c.incomplete + c.active[id].days, out.reply);
    }
  }

  lemma ResolveEffects(c: State, days: seq<Day>, clock: Clock)
    ensures Effects(c, OnDelivery(CallResolveIncompleteDays(days)), clock, ResolveIncompleteDays(c, days))
  {
    ResolveShape(c, days);
  }

  lemma DeliveryEffects(c: State, call: DeliveryCall, clock: Clock)
    requires GateInv(c)
    ensures Effects(c, OnDelivery(call), clock, DeliveryStep(c, call, clock))
  {
    match call
    case CallReserve(input) => ReserveEffects(c, input, clock);
    case CallAcquireWrite(id, payload) => FrameEffects(c, OnDelivery(call), clock, DeliveryStep(c, call, clock));
    case CallPlanWrite(id, payload, days, moves) => PlanWriteEffects(c, id, payload, days, moves, clock);
    case CallLinkDirtyDays(id, payload, moves) => LinkEffects(c, id, payload, moves, clock);
    case CallFinishDelivery(id, payload, has, planned) => FinishDeliveryEffects(c, id, payload, has, planned, clock);
    case CallExpire(id, payload) => ExpireEffects(c, id, payload, clock);
    case CallResolveIncompleteDays(days) => ResolveEffects(c, days, clock);
  }

  lemma RequestFrame(c: State, clock: Clock)
    requires GateInv(c)
    ensures Frame(c, RequestSnapshot(c, clock).state, clock)
  {
    RecoverFrame(c, clock);
    RequestShape(c, clock);
  }

  lemma BeginFrame(c: State, claim: string, clock: Clock)
    requires GateInv(c)
    ensures Frame(c, BeginSnapshot(c, claim, clock).state, clock)
  {
    RecoverFrame(c, clock);
    BeginShape(c, claim, clock);
  }

  lemma ManifestFrame(c: State, g: int, claim: string, clock: Clock)
    requires GateInv(c)
    ensures Frame(c, PrepareManifest(c, g, claim, clock).state, clock)
  {
    RecoverShape(c, clock.now);
    ManifestShape(c, g, claim, clock);
  }

  lemma FailCaptureFrame(c: State, g: int, clock: Clock)
    requires GateInv(c)
    ensures Frame(c, FailCapture(c, g, clock).state, clock)
  {
    RecoverShape(c, clock.now);
  }

  lemma FailFrame(c: State, g: int, claim: string, reason: Option<string>, clock: Clock)
    requires GateInv(c)
    ensures Frame(c, FailSnapshot(c, g, claim, reason, clock).state, clock)
  {
    FailCaptureFrame(c, g, clock);
  }

  lemma FailWithFrame(c: State, key: CopyKey, g: int, reason: string, clock: Clock)
    requires GateInv(c)
    ensures Frame(c, FailWith(c.(intents := c.intents - {key}), c, g, reason, clock).state, clock)
  {
    FailCaptureFrame(c.(intents := c.intents - {key}), g, clock);
  }

  lemma FinishEffects(c: State, g: int, claim: string, clock: Clock)
    ensures Effects(c, OnGate(CallFinishSnapshot(g, claim)), clock, FinishSnapshot(c, g, claim, clock))
  {
    var out := FinishSnapshot(c, g, claim, clock);
    if out.state == c {
      FrameEffects(c, OnGate(CallFinishSnapshot(g, claim)), clock, out);
    }
  }

  lemma GateFrame(c: State, call: GateCall, clock: Clock)
    requires GateInv(c) && !call.CallFinishSnapshot?
    ensures Frame(c, GateStep(c, call, clock).state, clock)
  {
    match call
    case CallRequestSnapshot => RequestFrame(c, clock);
    case CallBeginSnapshot(claim) => BeginFrame(c, claim, clock);
    case CallPrepareManifest(g, claim) => ManifestFrame(c, g, claim, clock);
    case CallFailSnapshot(g, claim, reason) => FailFrame(c, g, claim, reason, clock);
    case CallGetStats => RecoverFrame(c, clock);
  }

  lemma SetLeaseFrame(c: State, g: int, claim: string, clock: Clock, expires: int)
    ensures Frame(c, SetLease(c, g, claim, clock, expires).state, clock)
  {
    SetLeaseShape(c, g, claim, clock, expires);
  }

  lemma LeaseFrame(c: State, call: LeaseCall, clock: Clock)
    ensures Frame(c, LeaseStep(c, call, clock).state, clock)
  {
    match call
    case CallClaimSnapshot(claim) => ClaimShape(c, claim, clock);
    case CallGetProgress(g, claim) => ReadOnlyLeaseCalls(c, g, claim, clock);
    case CallRenewClaim(g, claim) => SetLeaseFrame(c, g, claim, clock, clock.now + SNAPSHOT_LEASE_MS);
    case CallReleaseClaim(g, claim) => SetLeaseFrame(c, g, claim, clock, clock.now);
    case CallAssertActive(g, claim) => ReadOnlyLeaseCalls(c, g, claim, clock);
  }

  lemma RecordEffects(c: State, key: CopyKey, claim: string, i: int, startedAt: int, clock: Clock)
    ensures Effects(c, OnCopy(CallRecordIntent(key, claim, i, startedAt)), clock,
      RecordIntent(c, key, claim, i, startedAt, clock))
  {
    RecordIntentShape(c, key, claim, i, startedAt, clock);
    if RecordIntent(c, key, claim, i, startedAt, clock).state != c {
      AtCursor(c, key, claim, i, clock);
    }
  }

  lemma AttachFrame(c: State, key: CopyKey, claim: string, i: int, job: string, clock: Clock)
    ensures Frame(c, AttachJob(c, key, claim, i, job, clock).state, clock)
  {
    AttachToShape(c, key, job);
    AttachShape(c, key, claim, i, job, clock);
  }

  lemma SettleFrame(c: State, key: CopyKey, claim: string, i: int, job: string, ok: bool, clock: Clock)
    requires GateInv(c)
    ensures Frame(c, SettleIntent(c, key, claim, i, job, ok, clock).state, clock)
  {
    SettleShape(c, key, claim, i, job, ok, clock);
    FailWithFrame(c, key, key.generation, "Snapshot Copy job " + job + " failed", clock);
  }

  lemma RejectFrame(c: State, key: CopyKey, claim: string, i: int, reason: string, clock: Clock)
    requires GateInv(c)
    ensures Frame(c, RejectIntent(c, key, claim, i, reason, clock).state, clock)
  {
    RejectShape(c, key, claim, i, reason, clock);
    FailWithFrame(c, key, key.generation, reason, clock);
  }

  lemma CopyFrame(c: State, call: CopyCall, clock: Clock)
    requires GateInv(c) && !call.CallRecordIntent?
    ensures Frame(c, CopyStep(c, call, clock).state, clock)
  {
    match call
    case CallAttachJob(key, claim, i, job) => AttachFrame(c, key, claim, i, job, clock);
    case CallSettleIntent(key, claim, i, job, ok) => SettleFrame(c, key, claim, i, job, ok, clock);
    case CallRejectIntent(key, claim, i, reason) => RejectFrame(c, key, claim, i, reason, clock);
  }

  lemma CheckFrame(c: State, g: int, claim: string, i: nat, recovery: bool, clock: Clock)
    requires ChecksInv(c)
    ensures Frame(c, PrepareCheck(c, g, claim, i, recovery, clock).state, clock)
  {
    PrepareCheckShape(c, g, claim, i, recovery, clock);
  }

  lemma AbandonFrame(c: State, g: int, reason: string, key: CopyKey, startedAt: int, clock: Clock)
    requires GateInv(c)
    ensures Frame(c, AbandonUnstarted(c, g, reason, key, startedAt, clock).state, clock)
  {
    FailWithFrame(c, key, g, reason, clock);
  }

  lemma RecoveryFrame(c: State, call: RecoveryCall, clock: Clock)
    requires GateInv(c) && ChecksInv(c)
    ensures Frame(c, RecoveryStep(c, call, clock).state, clock)
  {
    match call
    case CallPrepareCheck(g, claim, i, recovery) => CheckFrame(c, g, claim, i, recovery, clock);
    case CallRequireRecovery(g, claim) =>
    case CallAbandonUnstarted(g, reason, key, startedAt) => AbandonFrame(c, g, reason, key, startedAt, clock);
    case CallResume(g) => ResumeShape(c, g, clock);
  }

  lemma ErasureReadEffects(c: State, call: ErasureCall, clock: Clock)
    requires GateInv(c) && (call.CallBeginErasure? || call.CallGetErasureState?)
    ensures Effects(c, OnErasure(call), clock, ErasureStep(c, call, clock))
  {
    RecoverFrame(c, clock);
  }

  lemma ErasureFrame(c: State, call: ErasureCall, clock: Clock)
    requires GateInv(c) && !call.CallBeginErasure? && !call.CallGetErasureState?
    ensures Frame(c, ErasureStep(c, call, clock).state, clock)
  {
    match call
    case CallAttachErasureJob(key, job) => AttachToShape(c, key, job);
    case CallSettleErasureIntent(key, job) =>
    case CallAbandonErasureSnapshot(g) => FailCaptureFrame(c, g, clock);
  }

  lemma AcquireFrame(c: State, id: string, payload: string, clock: Clock)
    ensures Frame(c, AcquireWrite(c, id, payload, clock).state, clock)
  {}

  /** The calls that leave deliveries and days alone. */
  predicate Framed(call: Call) {
    match call
    case OnDelivery(delivery) => delivery.CallAcquireWrite?
    case OnGate(gate) => !gate.CallFinishSnapshot?
    case OnLease(_) => true
    case OnCopy(copy) => !copy.CallRecordIntent?
    case OnRecovery(_) => true
    case OnErasure(erasure) => !erasure.CallBeginErasure? && !erasure.CallGetErasureState?
  }

  lemma StepFrame(c: State, call: Call, clock: Clock)
    requires Inv(c) && Framed(call)
    ensures Frame(c, Step(c, call, clock).state, clock)
  {
    match call
    case OnDelivery(delivery) => AcquireFrame(c, delivery.id, delivery.payload, clock);
    case OnGate(gate) => GateFrame(c, gate, clock);
    case OnLease(lease) => LeaseFrame(c, lease, clock);
    case OnCopy(copy) => CopyFrame(c, copy, clock);
    case OnRecovery(recovery) => RecoveryFrame(c, recovery, clock);
    case OnErasure(erasure) => ErasureFrame(c, erasure, clock);
  }

  lemma StepEffects(c: State, call: Call, clock: Clock)
    requires Inv(c)
    ensures Effects(c, call, clock, Step(c, call, clock))
  {
    if Framed(call) {
      StepFrame(c, call, clock);
      FrameEffects(c, call, clock, Step(c, call, clock));
    } else {
      match call
      case OnDelivery(delivery) => DeliveryEffects(c, delivery, clock);
      case OnGate(gate) => FinishEffects(c, gate.generation, gate.claim, clock);
      case OnCopy(copy) => RecordEffects(c, copy.key, copy.claim, copy.copyIndex, copy.startedAt, clock);
      case OnErasure(erasure) => ErasureReadEffects(c, erasure, clock);
    }
  }

  /** Event `i` of a run and what it may change. */
  lemma RunEffects(run: seq<Event>, i: nat)
    requires i < |run|
    ensures Effects(After(run[..i]), run[i].call, run[i].clock, Outcome(After(run[..i + 1]), ReplyAt(run, i)))
  {
    ReachableInv(run[..i]);
    StepEffects(After(run[..i]), run[i].call, run[i].clock);
    AfterNext(run, i);
  }

  // ---- write order is sequence order ----

  /** No active delivery, now or later, has a sequence number below `floor`. */
  predicate AtLeast(c: State, floor: nat) {
    floor <= c.lastSequence + 1 && forall id :: id in c.active ==> floor <= c.active[id].sequence
  }

  lemma AtLeastStep(c: State, call: Call, c1: State, floor: nat)
    requires ActiveMoved(c, call, c1) && AtLeast(c, floor)
    ensures AtLeast(c1, floor)
  {}

  lemma {:induction false} AtLeastForever(run: seq<Event>, i: nat, j: nat, floor: nat)
    requires i <= j <= |run| && AtLeast(After(run[..i]), floor)
    ensures AtLeast(After(run[..j]), floor)
    decreases j
  {
    if i < j {
      AtLeastForever(run, i, j - 1, floor);
      RunEffects(run, j - 1);
      AtLeastStep(After(run[..j - 1]), run[j - 1].call, After(run[..j]), floor);
    }
  }

  lemma HolderIsSmallest(c: State, id: string)
    requires Inv(c) && HoldsPermit(c, id)
    ensures AtLeast(c, c.active[id].sequence)
  {}

  /**
   * The smallest active sequence number never falls, whichever deliveries complete or expire in
   * between. So the write permit is handed over in sequence order, and a later writer never has a
   * smaller revision.
   */
  lemma WritersInSequenceOrder(run: seq<Event>, i: nat, j: nat, earlier: string, later: string)
    requires i <= j <= |run|
    requires HoldsPermit(After(run[..i]), earlier) && HoldsPermit(After(run[..j]), later)
    ensures After(run[..i]).active[earlier].sequence <= After(run[..j]).active[later].sequence
    ensures After(run[..i]).active[earlier].sequence == After(run[..j]).active[later].sequence ==> earlier == later
  {
    ReachableInv(run[..i]);
    HolderIsSmallest(After(run[..i]), earlier);
    AtLeastForever(run, i, j, After(run[..i]).active[earlier].sequence);
    if After(run[..i]).active[earlier].sequence == After(run[..j]).active[later].sequence {
      SequenceNamesDelivery(run, i, j, earlier, later);
    }
  }

  /** A sequence number that an active delivery does not hold now was never and is never held again. */
  predicate Retired(c: State, id: string, sequence: nat) {
    sequence <= c.lastSequence && forall other :: other in c.active && other != id ==> c.active[other].sequence != sequence
  }

  lemma {:induction false} RetiredForever(run: seq<Event>, i: nat, j: nat, id: string, sequence: nat)
    requires i <= j <= |run| && Retired(After(run[..i]), id, sequence)
    ensures Retired(After(run[..j]), id, sequence)
    decreases j
  {
    if i < j {
      RetiredForever(run, i, j - 1, id, sequence);
      RunEffects(run, j - 1);
      RetiredStep(After(run[..j - 1]), run[j - 1].call, After(run[..j]), id, sequence);
    }
  }

  lemma RetiredStep(c: State, call: Call, c1: State, id: string, sequence: nat)
    requires ActiveMoved(c, call, c1) && Retired(c, id, sequence)
    ensures Retired(c1, id, sequence)
  {}

  lemma SequenceNamesDelivery(run: seq<Event>, i: nat, j: nat, id: string, other: string)
    requires i <= j <= |run| && id in After(run[..i]).active && other in After(run[..j]).active
    requires After(run[..i]).active[id].sequence == After(run[..j]).active[other].sequence
    ensures id == other
  {
    ReachableInv(run[..i]);
    OnlyHolder(After(run[..i]), id);
    RetiredForever(run, i, j, id, After(run[..i]).active[id].sequence);
  }

  lemma OnlyHolder(c: State, id: string)
    requires Inv(c) && id in c.active
    ensures Retired(c, id, c.active[id].sequence)
  {}

  // ---- dirty marks ----

  /** Event `i` published day `d`, or completed an erasure. */
  ghost predicate Clears(run: seq<Event>, i: nat, d: Day)
    requires i < |run|
  {
    var c, reply := After(run[..i]), ReplyAt(run, i);
    || (reply.Finished? && reply.generation in c.captured && d in c.captured[reply.generation])
    || (reply.Erasure? && reply.ready)
  }

  /**
   * Failing, abandoning, re-claiming and every other call keep a dirty mark: a day that stays
   * retained leaves the dirty set only when a snapshot holding it is finished.
   */
  lemma {:induction false} DirtyMarksSurvive(run: seq<Event>, i: nat, j: nat, d: Day)
    requires i <= j <= |run| && d in After(run[..i]).dirty
    requires forall k :: i <= k < j ==> run[k].clock.Retains(d) && !Clears(run, k, d)
    ensures d in After(run[..j]).dirty
    decreases j
  {
    if i < j {
      DirtyMarksSurvive(run, i, j - 1, d);
      RunEffects(run, j - 1);
      assert !Clears(run, j - 1, d);
    }
  }

  /** Counting is enough: no more dirty than incomplete days means every dirty day is incomplete. */
  lemma CountTestMeansEveryDayIncomplete(run: seq<Event>)
    ensures
      var c := After(run);
      |c.dirty| <= |c.incomplete| <==> c.dirty <= c.incomplete
  {
    ReachableInv(run);
    var c := After(run);
    if !(c.dirty <= c.incomplete) {
      DayGraph.CardinalityDrops(c.incomplete, c.dirty);
    } else {
      assert c.dirty == c.incomplete;
    }
  }

  // ---- erasure is a permanent fence ----

  /** Deliveries and intents only shrink and no generation starts. */
  predicate Fenced(c: State, c1: State) {
    && c1.erasureStartedAt == c.erasureStartedAt
    && c1.active.Keys <= c.active.Keys && c1.intents.Keys <= c.intents.Keys
    && c1.lastGeneration == c.lastGeneration && c1.lastSequence >= c.lastSequence
    && (c.activeGeneration.None? ==> c1.activeGeneration.None?)
  }

  lemma FenceStep(run: seq<Event>, i: nat)
    requires i < |run| && After(run[..i]).erasureStartedAt.Some?
    ensures Fenced(After(run[..i]), After(run[..i + 1]))
  {
    ReachableInv(run[..i]);
    RunEffects(run, i);
    RunMoves(run, i);
    ErasureStopsCaptures(After(run[..i]), run[i].call, run[i].clock);
  }

  lemma OnlyGateCallsBegin(c: State, call: Call, clock: Clock)
    requires Inv(c) && !call.OnGate?
    ensures !Step(c, call, clock).reply.Begun?
  {
    match call
    case OnDelivery(delivery) => DeliveryStays(c, delivery, clock);
    case OnLease(lease) => LeaseStays(c, lease, clock);
    case OnCopy(copy) => CopyCallsDoNotBegin(c, copy, clock);
    case OnRecovery(recovery) => RecoveryMoves(c, recovery, clock);
    case OnErasure(erasure) => ErasureMoves(c, erasure, clock);
  }

  lemma CopyCallsDoNotBegin(c: State, call: CopyCall, clock: Clock)
    ensures !CopyStep(c, call, clock).reply.Begun?
  {}

  lemma ErasureStopsGate(c: State, call: GateCall, clock: Clock)
    requires c.erasureStartedAt.Some?
    ensures !GateStep(c, call, clock).reply.Begun?
  {}

  lemma ErasureStopsCaptures(c: State, call: Call, clock: Clock)
    requires Inv(c) && c.erasureStartedAt.Some?
    ensures !Step(c, call, clock).reply.Begun?
  {
    if call.OnGate? {
      ErasureStopsGate(c, call.gate, clock);
    } else {
      OnlyGateCallsBegin(c, call, clock);
    }
  }

  lemma {:induction false} ErasureFence(run: seq<Event>, i: nat, j: nat)
    requires i <= j <= |run| && After(run[..i]).erasureStartedAt.Some?
    ensures Fenced(After(run[..i]), After(run[..j]))
    decreases j
  {
    if i < j {
      ErasureFence(run, i, j - 1);
      FenceStep(run, j - 1);
    }
  }

  /** An erasure that reported ready: nothing is left, and the gate is open with nothing to capture. */
  predicate Erased(c: State) {
    && c.erasureStartedAt.Some? && c.phase.Open?
    && c.active == map[] && c.intents == map[] && c.captured == map[] && c.progress == map[]
    && c.dirty == {} && c.incomplete == {} && c.links == {}
  }

  lemma ErasedStays(c: State, call: Call, clock: Clock)
    requires Inv(c) && Erased(c)
    ensures Erased(Step(c, call, clock).state)
  {
  }

  lemma {:induction false} ErasedForever(run: seq<Event>, i: nat, j: nat)
    requires i <= j <= |run| && Erased(After(run[..i]))
    ensures Erased(After(run[..j]))
    decreases j
  {
    if i < j {
      ErasedForever(run, i, j - 1);
      ReachableInv(run[..j - 1]);
      ErasedStays(After(run[..j - 1]), run[j - 1].call, run[j - 1].clock);
      AfterNext(run, j - 1);
    }
  }

  lemma SettledMeansErased(c: State)
    requires GateInv(c) && IdleInv(c) && c.erasureStartedAt.Some? && SettleErasureState(c).reply.ready
    ensures Erased(SettleErasureState(c).state)
  {}

  lemma ReadyMeansErased(c: State, call: ErasureCall, clock: Clock)
    requires GateInv(c) && IdleInv(c)
    requires ErasureStep(c, call, clock).reply.Erasure? && ErasureStep(c, call, clock).reply.ready
    ensures Erased(ErasureStep(c, call, clock).state)
  {
    RecoverStays(c, clock);
    var c1 := RecoverAndPrune(c, clock).value;
    if call.CallBeginErasure? || c1.erasureStartedAt.Some? {
      SettledMeansErased(if c1.erasureStartedAt.Some? then c1 else c1.(erasureStartedAt := Some(clock.now)));
    }
  }

  lemma ErasedReplies(c: State, clock: Clock)
    requires Erased(c) && GateInv(c)
    ensures GetErasureState(c, clock).reply == Erasure(true, 0, 0, 0)
  {
    RecoverFrame(c, clock);
    RecoverShape(c, clock.now);
    assert ErasureReady(RecoverAndPrune(c, clock).value);
  }

  /** Once an erasure has reported ready, every table stays empty and every later report is ready. */
  lemma ErasureReadyIsFinal(run: seq<Event>, i: nat, j: nat)
    requires i < j <= |run| && run[i].call.OnErasure? && ReplyAt(run, i).Erasure? && ReplyAt(run, i).ready
    ensures Erased(After(run[..j]))
    ensures forall clock: Clock :: GetErasureState(After(run[..j]), clock).reply == Erasure(true, 0, 0, 0)
  {
    ReachableInv(run[..i]);
    ReachableInv(run[..j]);
    ReadyMeansErased(After(run[..i]), run[i].call.erasure, run[i].clock);
    AfterNext(run, i);
    ErasedForever(run, i + 1, j);
    forall clock: Clock ensures GetErasureState(After(run[..j]), clock).reply == Erasure(true, 0, 0, 0) {
      ErasedReplies(After(run[..j]), clock);
    }
  }
}
