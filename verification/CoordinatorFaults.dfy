/**
 * The error branches that guard the tables against each other never run: in a reachable state the
 * coordinator cannot find a missing lease, a progress row that disagrees with the gate, a second
 * failure row, a check off its cursor, or an over-full intent or link table.
 */
module CoordinatorFaults {
  import opened Contract
  import opened CopyPlan
  import opened CoordinatorModel
  import opened CoordinatorInvariants
  import opened CoordinatorRuns
  import DayGraph

  const IMPOSSIBLE: set<Fault> := {
    LeaseMissing, ProgressMissing, ProgressMismatch, CursorInvalid, CursorNotAdvanced,
    IntentLimit, LinkLimit, FailureCollision, CheckMismatch
  }

  predicate Sound(reply: Reply) {
    reply.Refused? ==> reply.fault !in IMPOSSIBLE
  }

  // ---- the link table holds at most one link for each pair of its days ----

  lemma {:induction false} OneLinkForEachPair(nodes: set<Day>, links: set<Link>)
    requires forall l :: l in links ==> l.a < l.b && l.a in nodes && l.b in nodes
    ensures |links| <= |nodes| * (|nodes| - 1) / 2
    decreases |nodes|
  {
    if nodes == {} {
      assert forall l :: l in links ==> l.a in nodes;
      assert links == {};
    } else {
      DayGraph.NonEmpty(nodes);
      var x :| x in nodes;
      var others := nodes - {x};
      var touching := set l | l in links && (l.a == x || l.b == x);
      LinksOfOneDay(nodes, touching, x);
      OneLinkForEachPair(others, links - touching);
      assert links == touching + (links - touching);
      PairsOf(|nodes|);
    }
  }

  lemma {:induction false} LinksOfOneDay(nodes: set<Day>, touching: set<Link>, x: Day)
    requires forall l :: l in touching ==> l.a < l.b && l.a in nodes && l.b in nodes && (l.a == x || l.b == x)
    requires x in nodes
    ensures |touching| <= |nodes| - 1
    decreases touching
  {
    if touching != {} {
      var l :| l in touching;
      var y := if l.a == x then l.b else l.a;
      LinksOfOneDay(nodes - {y}, touching - {l}, x);
    } else {
      DayGraph.SubsetCardinality({x}, nodes);
    }
  }

  lemma PairsOf(n: nat)
    requires n >= 1
    ensures n * (n - 1) / 2 == (n - 1) * (n - 2) / 2 + (n - 1)
  {
    assert n * (n - 1) == (n - 1) * (n - 2) + 2 * (n - 1);
  }

  lemma PairsGrow(n: nat, m: nat)
    requires n <= m
    ensures n * (n - 1) / 2 <= m * (m - 1) / 2
  {
    assert n * (n - 1) <= m * (m - 1);
  }

  lemma LinksFit(links: set<Link>)
    requires (forall l :: l in links ==> l.a < l.b) && |LinkNodes(links)| <= MAX_LINK_NODES
    ensures |links| <= MAX_LINKS
  {
    OneLinkForEachPair(LinkNodes(links), links);
    PairsGrow(|LinkNodes(links)|, MAX_LINK_NODES);
  }

  // ---- the claim and the progress row ----

  lemma ProgressReadable(c: State, generation: int)
    requires GenerationInv(c) && c.activeGeneration == Some(generation)
    ensures ReadProgress(c, generation).Ok?
  {}

  lemma ClaimFaults(c: State, generation: int, claim: string, clock: Clock)
    requires GenerationInv(c) && AssertClaim(c, generation, claim, clock).Err?
    ensures AssertClaim(c, generation, claim, clock).error in {ClaimNotActive, ClaimOwnerMismatch}
  {}

  lemma CursorFaults(c: State, key: CopyKey, claim: string, copyIndex: int, clock: Clock)
    requires GenerationInv(c) && CursorFault(c, key, claim, copyIndex, clock).Some?
    ensures CursorFault(c, key, claim, copyIndex, clock).value in
      {ClaimNotActive, ClaimOwnerMismatch, CursorMismatch, CursorComplete, CopyKeyMismatch}
  {
    if AssertClaim(c, key.generation, claim, clock).Err? {
      ClaimFaults(c, key.generation, claim, clock);
    }
  }

  // ---- call by call ----

  lemma LinkSound(c: State, id: string, payload: string, moves: seq<Move>, clock: Clock)
    requires LinksInv(c)
    ensures Sound(LinkDirtyDays(c, id, payload, moves, clock).reply)
  {
    if MovesFault(moves, clock).None? && |LinkNodes(c.links + LinksOf(moves))| <= MAX_LINK_NODES {
      LinksOrdered(moves, clock);
      LinksFit(c.links + LinksOf(moves));
    }
  }

  lemma PlanWriteReplies(c: State, id: string, payload: string, days: seq<Day>, moves: seq<Move>, clock: Clock)
    ensures
      var planned := ReplaceDirtyDays(c, id, payload, days, clock);
      PlanWrite(c, id, payload, days, moves, clock).reply in
        {planned.reply, LinkDirtyDays(planned.state, id, payload, moves, clock).reply}
  {}

  lemma ReplaceSound(c: State, id: string, payload: string, days: seq<Day>, clock: Clock)
    ensures Sound(ReplaceDirtyDays(c, id, payload, days, clock).reply)
  {}

  lemma PlanWriteSound(c: State, id: string, payload: string, days: seq<Day>, moves: seq<Move>, clock: Clock)
    requires LinksInv(c)
    ensures Sound(PlanWrite(c, id, payload, days, moves, clock).reply)
  {
    ReplaceShape(c, id, payload, days, clock);
    ReplaceSound(c, id, payload, days, clock);
    PlanWriteReplies(c, id, payload, days, moves, clock);
    LinkSound(ReplaceDirtyDays(c, id, payload, days, clock).state, id, payload, moves, clock);
  }

  lemma ReserveSound(c: State, input: ReserveInput, clock: Clock)
    requires GateInv(c)
    ensures Sound(Reserve(c, input, clock).reply)
  {
    RecoverShape(c, clock.now);
  }

  lemma DeliverySound(c: State, call: DeliveryCall, clock: Clock)
    requires GateInv(c) && LinksInv(c)
    ensures Sound(DeliveryStep(c, call, clock).reply)
  {
    match call
    case CallReserve(input) => ReserveSound(c, input, clock);
    case CallPlanWrite(id, payload, days, moves) => PlanWriteSound(c, id, payload, days, moves, clock);
    case CallLinkDirtyDays(id, payload, moves) => LinkSound(c, id, payload, moves, clock);
    case _ =>
  }

  lemma FailCaptureSound(c: State, g: int, clock: Clock)
    requires GateInv(c)
    ensures
      var failed := FailCapture(c, g, clock);
      && (failed.reply.Refused? ==> failed.reply.fault == NotActive)
      && failed.state.failure == c.failure
      && (!failed.reply.Refused? ==> c.phase.Snapshot?)
  {
    RecoverShape(c, clock.now);
  }

  lemma ManifestSound(c: State, g: int, claim: string, clock: Clock)
    requires GenerationInv(c)
    ensures Sound(PrepareManifest(c, g, claim, clock).reply)
  {
    RecoverShape(c, clock.now);
    if c.phase.Snapshot? && AssertClaim(c, g, claim, clock).Err? {
      ClaimFaults(c, g, claim, clock);
    }
  }

  lemma FinishSound(c: State, g: int, claim: string, clock: Clock)
    requires GenerationInv(c)
    ensures Sound(FinishSnapshot(c, g, claim, clock).reply)
  {
    if AssertClaim(c, g, claim, clock).Err? {
      ClaimFaults(c, g, claim, clock);
    }
  }

  lemma FailSound(c: State, g: int, claim: string, reason: Option<string>, clock: Clock)
    requires GenerationInv(c)
    ensures Sound(FailSnapshot(c, g, claim, reason, clock).reply)
  {
    FailCaptureSound(c, g, clock);
    if AssertClaim(c, g, claim, clock).Err? {
      ClaimFaults(c, g, claim, clock);
    }
  }

  lemma GateSound(c: State, call: GateCall, clock: Clock)
    requires GenerationInv(c)
    ensures Sound(GateStep(c, call, clock).reply)
  {
    RecoverShape(c, clock.now);
    match call
    case CallPrepareManifest(g, claim) => ManifestSound(c, g, claim, clock);
    case CallFinishSnapshot(g, claim) => FinishSound(c, g, claim, clock);
    case CallFailSnapshot(g, claim, reason) => FailSound(c, g, claim, reason, clock);
    case _ =>
  }

  lemma ClaimSound(c: State, claim: string, clock: Clock)
    requires GenerationInv(c)
    ensures Sound(ClaimSnapshot(c, claim, clock).reply)
  {
    if c.activeGeneration.Some? {
      ProgressReadable(c, c.activeGeneration.value);
    }
  }

  lemma SetLeaseSound(c: State, g: int, claim: string, clock: Clock, expires: int)
    requires GenerationInv(c)
    ensures Sound(SetLease(c, g, claim, clock, expires).reply)
  {
    if AssertClaim(c, g, claim, clock).Err? {
      ClaimFaults(c, g, claim, clock);
    }
  }

  lemma LeaseSound(c: State, call: LeaseCall, clock: Clock)
    requires GenerationInv(c)
    ensures Sound(LeaseStep(c, call, clock).reply)
  {
    match call
    case CallClaimSnapshot(claim) => ClaimSound(c, claim, clock);
    case CallGetProgress(g, claim) => LeaseReadsSound(c, g, claim, clock);
    case CallRenewClaim(g, claim) => SetLeaseSound(c, g, claim, clock, clock.now + SNAPSHOT_LEASE_MS);
    case CallReleaseClaim(g, claim) => SetLeaseSound(c, g, claim, clock, clock.now);
    case CallAssertActive(g, claim) => LeaseReadsSound(c, g, claim, clock);
  }

  lemma LeaseReadsSound(c: State, g: int, claim: string, clock: Clock)
    requires GenerationInv(c)
    ensures Sound(GetProgress(c, g, claim, clock).reply) && Sound(AssertSnapshotActive(c, g, claim, clock).reply)
  {
    if AssertClaim(c, g, claim, clock).Err? {
      ClaimFaults(c, g, claim, clock);
    }
  }

  lemma FailWithSound(c: State, key: CopyKey, g: int, reason: string, clock: Clock)
    requires GateInv(c) && CaptureInv(c)
    ensures Sound(FailWith(c.(intents := c.intents - {key}), c, g, reason, clock).reply)
  {
    FailCaptureSound(c.(intents := c.intents - {key}), g, clock);
  }

  lemma RecordSound(c: State, key: CopyKey, claim: string, i: int, startedAt: int, clock: Clock)
    requires GenerationInv(c)
    ensures Sound(RecordIntent(c, key, claim, i, startedAt, clock).reply)
  {
    if CursorFault(c, key, claim, i, clock).Some? {
      CursorFaults(c, key, claim, i, clock);
    } else {
      AtCursor(c, key, claim, i, clock);
      IntentsAtCursor(c, key, i);
    }
  }

  lemma IntentsAtCursor(c: State, key: CopyKey, i: int)
    requires GenerationInv(c) && c.activeGeneration == Some(key.generation) && c.progress[key.generation].next == i
    requires KeyAt(key.generation, CountCaptured(c, key.generation), i) == Some(key)
    ensures |c.intents| <= 1
  {
    DayGraph.SubsetCardinality(c.intents.Keys, {key});
    assert |c.intents| == |c.intents.Keys|;
  }

  lemma SettleSound(c: State, key: CopyKey, claim: string, i: int, job: string, ok: bool, clock: Clock)
    requires GenerationInv(c)
    ensures Sound(SettleIntent(c, key, claim, i, job, ok, clock).reply)
  {
    FailWithSound(c, key, key.generation, "Snapshot Copy job " + job + " failed", clock);
    if CursorFault(c, key, claim, i, clock).Some? {
      CursorFaults(c, key, claim, i, clock);
    } else {
      AtCursor(c, key, claim, i, clock);
    }
  }

  lemma RejectSound(c: State, key: CopyKey, claim: string, i: int, reason: string, clock: Clock)
    requires GenerationInv(c)
    ensures Sound(RejectIntent(c, key, claim, i, reason, clock).reply)
  {
    FailWithSound(c, key, key.generation, reason, clock);
    if CursorFault(c, key, claim, i, clock).Some? {
      CursorFaults(c, key, claim, i, clock);
    }
  }

  lemma AttachSound(c: State, key: CopyKey, claim: string, i: int, job: string, clock: Clock)
    requires GenerationInv(c)
    ensures Sound(AttachJob(c, key, claim, i, job, clock).reply)
  {
    if CursorFault(c, key, claim, i, clock).Some? {
      CursorFaults(c, key, claim, i, clock);
    }
  }

  lemma CopySound(c: State, call: CopyCall, clock: Clock)
    requires GenerationInv(c)
    ensures Sound(CopyStep(c, call, clock).reply)
  {
    match call
    case CallRecordIntent(key, claim, i, startedAt) => RecordSound(c, key, claim, i, startedAt, clock);
    case CallAttachJob(key, claim, i, job) => AttachSound(c, key, claim, i, job, clock);
    case CallSettleIntent(key, claim, i, job, ok) => SettleSound(c, key, claim, i, job, ok, clock);
    case CallRejectIntent(key, claim, i, reason) => RejectSound(c, key, claim, i, reason, clock);
  }

  lemma CheckFaults(c: State, g: int, claim: string, i: nat, recovery: bool, clock: Clock)
    ensures
      var reply := PrepareCheck(c, g, claim, i, recovery, clock).reply;
      reply.Refused? ==>
        reply.fault in {StaleCheck, CheckMismatch} || AssertClaim(c, g, claim, clock) == Err(reply.fault)
  {}

  lemma CheckSound(c: State, g: int, claim: string, i: nat, recovery: bool, clock: Clock)
    requires GenerationInv(c) && PrepareCheck(c, g, claim, i, recovery, clock).reply != Refused(CheckMismatch)
    ensures Sound(PrepareCheck(c, g, claim, i, recovery, clock).reply)
  {
    CheckFaults(c, g, claim, i, recovery, clock);
    if AssertClaim(c, g, claim, clock).Err? {
      ClaimFaults(c, g, claim, clock);
    }
  }

  lemma AbandonSound(c: State, g: int, reason: string, key: CopyKey, startedAt: int, clock: Clock)
    requires GateInv(c) && CaptureInv(c)
    ensures Sound(AbandonUnstarted(c, g, reason, key, startedAt, clock).reply)
  {
    FailWithSound(c, key, g, reason, clock);
  }

  lemma PrepareCheckSound(c: State, g: int, claim: string, i: nat, recovery: bool, clock: Clock)
    requires Inv(c)
    ensures Sound(PrepareCheck(c, g, claim, i, recovery, clock).reply)
  {
    PrepareCheckKeeps(c, g, claim, i, recovery, clock);
    CheckSound(c, g, claim, i, recovery, clock);
  }

  lemma RequireRecoverySound(c: State, g: int, claim: string, clock: Clock)
    requires GenerationInv(c)
    ensures Sound(RequireRecovery(c, g, claim, clock).reply)
  {
    if AssertClaim(c, g, claim, clock).Err? {
      ClaimFaults(c, g, claim, clock);
    }
  }

  lemma ResumeSound(c: State, g: int, clock: Clock)
    ensures Sound(Resume(c, g, clock).reply)
  {}

  lemma RecoverySound(c: State, call: RecoveryCall, clock: Clock)
    requires Inv(c)
    ensures Sound(RecoveryStep(c, call, clock).reply)
  {
    match call
    case CallPrepareCheck(g, claim, i, recovery) => PrepareCheckSound(c, g, claim, i, recovery, clock);
    case CallRequireRecovery(g, claim) => RequireRecoverySound(c, g, claim, clock);
    case CallAbandonUnstarted(g, reason, key, startedAt) => AbandonSound(c, g, reason, key, startedAt, clock);
    case CallResume(g) => ResumeSound(c, g, clock);
  }

  lemma ErasureSound(c: State, call: ErasureCall, clock: Clock)
    requires GateInv(c)
    ensures Sound(ErasureStep(c, call, clock).reply)
  {
    RecoverShape(c, clock.now);
    match call
    case CallAbandonErasureSnapshot(g) => FailCaptureSound(c, g, clock);
    case _ =>
  }

  lemma StepSound(c: State, call: Call, clock: Clock)
    requires Inv(c)
    ensures Sound(Step(c, call, clock).reply)
  {
    match call
    case OnDelivery(delivery) => DeliverySound(c, delivery, clock);
    case OnGate(gate) => GateSound(c, gate, clock);
    case OnLease(lease) => LeaseSound(c, lease, clock);
    case OnCopy(copy) => CopySound(c, copy, clock);
    case OnRecovery(recovery) => RecoverySound(c, recovery, clock);
    case OnErasure(erasure) => ErasureSound(c, erasure, clock);
  }

  /** No call of any run ends in one of the impossible faults. */
  lemma ImpossibleFaultsNeverHappen(run: seq<Event>, i: nat)
    requires i < |run|
    ensures Sound(ReplyAt(run, i))
  {
    ReachableInv(run[..i]);
    StepSound(After(run[..i]), run[i].call, run[i].clock);
  }
}
