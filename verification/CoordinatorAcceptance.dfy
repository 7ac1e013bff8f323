/**
 * When each call of a writer, of a claim holder, of an operator and of an erasure is accepted, both ways,
 * and the tables it then leaves; a call that is not accepted leaves them as they were.
 */
module CoordinatorAcceptance {
  import opened Contract
  import opened CopyPlan
  import opened CoordinatorModel
  import opened CoordinatorInvariants
  import opened CoordinatorReplies
  import opened Publication
  import opened SnapshotRounds

  // ---- the writer ----

  /** The earliest active delivery, with its own payload and before its end. */
  predicate MayWrite(c: State, id: string, payload: string, clock: Clock) {
    id in c.active && c.active[id].payload == payload && clock.now < c.active[id].expiresAt && HoldsPermit(c, id)
  }

  function WithDays(c: State, id: string, days: set<Day>): State
    requires id in c.active
  {
    c.(active := c.active[id := c.active[id].(days := days)])
  }

  /** The writer may replace its days by any retained ones within the limit, and nobody else may. */
  lemma PlannedIff(c: State, id: string, payload: string, days: seq<Day>, clock: Clock)
    ensures
      var out := Step(c, OnDelivery(CallPlanWrite(id, payload, days, [])), clock);
      && (out.reply.DaysPlanned? <==>
            && MayWrite(c, id, payload, clock) && |days| <= MAX_DIRTY_DAYS && (forall d :: d in days ==> clock.Retains(d))
            && |PendingDays(WithDays(c, id, DaySetOf(days)))| <= MAX_DIRTY_DAYS)
      && (if out.reply.DaysPlanned? then out.state == WithDays(c, id, DaySetOf(days)) else out.reply.Refused? && out.state == c)
  {
    assert forall d :: d in days <==> d in DaySetOf(days);
  }

  /** Links between different retained days of the plan, within the limits. */
  predicate Linkable(c: State, id: string, moves: seq<Move>, clock: Clock) {
    && 0 < |moves| <= MAX_LINKS && id in c.active
    && (forall m :: m in moves ==> m.oldDay != m.newDay && clock.Retains(m.oldDay) && clock.Retains(m.newDay))
    && (forall m :: m in moves ==> m.oldDay in c.active[id].days && m.newDay in c.active[id].days)
    && |LinkNodes(c.links + LinksOf(moves))| <= MAX_LINK_NODES && |c.links + LinksOf(moves)| <= MAX_LINKS
  }

  lemma EndsOfMoves(moves: seq<Move>, days: set<Day>)
    ensures LinkNodes(LinksOf(moves)) <= days <==> forall m :: m in moves ==> m.oldDay in days && m.newDay in days
  {
    if LinkNodes(LinksOf(moves)) <= days {
      forall m | m in moves ensures m.oldDay in days && m.newDay in days {
        var l := LinkOf(m);
        assert l in LinksOf(moves);
        assert l.a in LinkNodes(LinksOf(moves)) && l.b in LinkNodes(LinksOf(moves));
      }
    }
  }

  /** The writer may add exactly such links, and nobody else may. */
  lemma LinkedIff(c: State, id: string, payload: string, moves: seq<Move>, clock: Clock)
    ensures
      var out := Step(c, OnDelivery(CallLinkDirtyDays(id, payload, moves)), clock);
      && (out.reply.LinksAdded? <==> MayWrite(c, id, payload, clock) && Linkable(c, id, moves, clock))
      && (if out.reply.LinksAdded? then out.state == c.(links := c.links + LinksOf(moves)) else out.reply.Refused? && out.state == c)
  {
    if id in c.active {
      EndsOfMoves(moves, c.active[id].days);
    }
  }

  /** Planning with links is planning and then linking: when a link is refused the new days stay. */
  lemma PlannedThenLinked(c: State, id: string, payload: string, days: seq<Day>, moves: seq<Move>, clock: Clock)
    requires moves != []
    ensures
      var out := Step(c, OnDelivery(CallPlanWrite(id, payload, days, moves)), clock);
      var planned := Step(c, OnDelivery(CallPlanWrite(id, payload, days, [])), clock);
      var linked := Step(planned.state, OnDelivery(CallLinkDirtyDays(id, payload, moves)), clock);
      if planned.reply.Refused? then out == planned
      else if linked.reply.Refused? then out == Outcome(planned.state, linked.reply)
      else out == Outcome(linked.state, planned.reply)
  {
    LinkedIff(Step(c, OnDelivery(CallPlanWrite(id, payload, days, [])), clock).state, id, payload, moves, clock);
  }

  /** Whoever has the payload may complete, at any time; its days are dirty then, and only a different plan is an error. */
  lemma CompletedIff(c: State, id: string, payload: string, planned: set<Day>, clock: Clock)
    ensures
      var out := Step(c, OnDelivery(CallFinishDelivery(id, payload, true, planned)), clock);
      var known := id in c.active && c.active[id].payload == payload;
      && (out.reply.Left? <==> known && c.active[id].days == planned)
      && (if known then out.state == Prune(c.(dirty := c.dirty + c.active[id].days, active := c.active - {id}), clock)
          else out.reply.Refused? && out.state == c)
  {}

  // ---- the claim holder ----

  predicate LiveClaim(c: State, g: int, claim: string, clock: Clock) {
    HoldsClaim(c, g, claim) && c.phase.Snapshot? && c.gateExpires.Some? && clock.now < c.gateExpires.value
  }

  /** The key at the cursor of a live claim. */
  predicate AtCursor(c: State, key: CopyKey, claim: string, copyIndex: int, clock: Clock) {
    && LiveClaim(c, key.generation, claim, clock) && copyIndex == c.progress[key.generation].next
    && KeyAt(key.generation, CountCaptured(c, key.generation), copyIndex) == Some(key) && KeyFault(key).None?
  }

  lemma LiveIff(c: State, g: int, claim: string, clock: Clock)
    requires Inv(c)
    ensures AssertClaim(c, g, claim, clock).Ok? <==> LiveClaim(c, g, claim, clock)
    ensures LiveClaim(c, g, claim, clock) ==>
      var view := AssertClaim(c, g, claim, clock).value;
      && g in c.captured && view.generation == g && view.days == c.captured[g] && view.next == c.progress[g].next
      && view.total == CopyCount(|c.captured[g]|) && view.manifestAt == c.progress[g].manifestAt
  {}

  lemma CursorIff(c: State, key: CopyKey, claim: string, copyIndex: int, clock: Clock)
    requires Inv(c)
    ensures AtCursor(c, key, claim, copyIndex, clock) <==> CursorFault(c, key, claim, copyIndex, clock).None? && KeyFault(key).None?
  {
    LiveIff(c, key.generation, claim, clock);
  }

  /** Exactly the holder of a live claim reads the progress, and reads it right. */
  lemma ProgressIff(c: State, g: int, claim: string, clock: Clock)
    requires Inv(c)
    ensures
      var out := Step(c, OnLease(CallGetProgress(g, claim)), clock);
      && out.state == c && (out.reply.Claimed? <==> LiveClaim(c, g, claim, clock)) && (out.reply.Claimed? || out.reply.Refused?)
      && (out.reply.Claimed? ==>
            && g in c.captured && out.reply.view.days == c.captured[g] && out.reply.view.next == c.progress[g].next
            && out.reply.view.total == CopyCount(|c.captured[g]|))
  {
    LiveIff(c, g, claim, clock);
  }

  lemma ActiveIff(c: State, g: int, claim: string, clock: Clock)
    requires Inv(c)
    ensures
      var out := Step(c, OnLease(CallAssertActive(g, claim)), clock);
      && out.state == c && (out.reply.IsActive? || out.reply.Refused?)
      && (out.reply.IsActive? <==> c.erasureStartedAt.None? && LiveClaim(c, g, claim, clock) && CaptureRetained(c, clock))
  {
    LiveIff(c, g, claim, clock);
  }

  lemma OnlyAtCursor(c: State, g: int, key: CopyKey)
    requires Inv(c) && c.activeGeneration == Some(g) && KeyAt(g, CountCaptured(c, g), c.progress[g].next) == Some(key)
    ensures key in c.intents <==> c.intents != map[]
    ensures c.intents - {key} == map[] && (key !in c.intents ==> c.intents == map[])
  {
    assert (c.intents - {key}).Keys == {};
    if key !in c.intents {
      assert c.intents.Keys == {};
    }
  }

  lemma RecordAnswers(c: State, key: CopyKey, claim: string, copyIndex: int, startedAt: int, clock: Clock)
    requires |c.intents| < MAX_OUTSTANDING_INTENTS
    ensures
      var out := Step(c, OnCopy(CallRecordIntent(key, claim, copyIndex, startedAt)), clock);
      if c.erasureStartedAt.None? && CursorFault(c, key, claim, copyIndex, clock).None? && KeyFault(key).None? && key !in c.intents
      then out == Outcome(
        c.(intents := c.intents[key := Intent(startedAt, None)],
           check := Some(Check(key.generation, copyIndex, clock.now + 5_000, 0, 0, false, None))), Done)
      else out.reply.Refused? && out.state == c
  {}

  lemma FewIntents(c: State)
    requires Inv(c)
    ensures |c.intents| <= 1
  {
    if c.intents != map[] {
      var key :| key in c.intents;
      assert c.intents.Keys == {key};
      assert |c.intents| == |c.intents.Keys|;
    }
  }

  /** An intent is recorded exactly for the key at the cursor of a live claim while none is outstanding, with a fresh check. */
  lemma RecordedIff(c: State, key: CopyKey, claim: string, copyIndex: int, startedAt: int, clock: Clock)
    requires Inv(c)
    ensures
      var out := Step(c, OnCopy(CallRecordIntent(key, claim, copyIndex, startedAt)), clock);
      && (out.reply == Done <==> c.erasureStartedAt.None? && AtCursor(c, key, claim, copyIndex, clock) && c.intents == map[])
      && (out.reply == Done ==>
            out.state == c.(
              intents := map[key := Intent(startedAt, None)],
              check := Some(Check(key.generation, copyIndex, clock.now + 5_000, 0, 0, false, None))))
      && (out.reply != Done ==> out.reply.Refused? && out.state == c)
  {
    CursorIff(c, key, claim, copyIndex, clock);
    FewIntents(c);
    RecordAnswers(c, key, claim, copyIndex, startedAt, clock);
    if AtCursor(c, key, claim, copyIndex, clock) {
      OnlyAtCursor(c, key.generation, key);
    }
  }

  /** A job is attached exactly to the outstanding Copy at the cursor, and never another one than before. */
  lemma AttachedIff(c: State, key: CopyKey, claim: string, copyIndex: int, job: string, clock: Clock)
    requires Inv(c)
    ensures
      var out := Step(c, OnCopy(CallAttachJob(key, claim, copyIndex, job)), clock);
      && (out.reply == Done <==>
            && AtCursor(c, key, claim, copyIndex, clock) && key in c.intents
            && (c.intents[key].job.None? || c.intents[key].job == Some(job)))
      && (out.reply == Done ==> out.state == Attached(c, key, job))
      && (out.reply != Done ==> out.reply.Refused? && out.state == c)
  {
    CursorIff(c, key, claim, copyIndex, clock);
  }

  lemma SettlementAnswers(c: State, key: CopyKey, claim: string, copyIndex: int, job: string, clock: Clock)
    requires CursorFault(c, key, claim, copyIndex, clock).None? && KeyFault(key).None? ==>
      key.generation in c.progress && copyIndex == c.progress[key.generation].next
    ensures
      var out := Step(c, OnCopy(CallSettleIntent(key, claim, copyIndex, job, true)), clock);
      if CursorFault(c, key, claim, copyIndex, clock).None? && KeyFault(key).None? && HasJob(c, key, job)
      then out == Outcome(
        c.(intents := c.intents - {key}, check := None,
           progress := c.progress[key.generation := c.progress[key.generation].(next := copyIndex + 1)]), Done)
      else out.reply.Refused? && out.state == c
  {}

  /** A Copy is settled as done exactly with its own job at the cursor of a live claim; then the cursor is one further. */
  lemma SettledIff(c: State, key: CopyKey, claim: string, copyIndex: int, job: string, clock: Clock)
    requires Inv(c)
    ensures
      var out := Step(c, OnCopy(CallSettleIntent(key, claim, copyIndex, job, true)), clock);
      && (out.reply == Done <==> AtCursor(c, key, claim, copyIndex, clock) && HasJob(c, key, job))
      && (out.reply == Done ==> out.state == AtPosition(c, key.generation, c.progress[key.generation].next + 1))
      && (out.reply != Done ==> out.reply.Refused? && out.state == c)
  {
    CursorIff(c, key, claim, copyIndex, clock);
    SettlementAnswers(c, key, claim, copyIndex, job, clock);
    if AtCursor(c, key, claim, copyIndex, clock) {
      OnlyAtCursor(c, key.generation, key);
    }
  }

  /** A settlement as failed, or a rejection, is refused without the job, or with one. */
  lemma FailureNeedsItsJob(c: State, key: CopyKey, claim: string, copyIndex: int, job: string, reason: string, clock: Clock)
    requires Inv(c)
    ensures
      var out := Step(c, OnCopy(CallSettleIntent(key, claim, copyIndex, job, false)), clock);
      !(AtCursor(c, key, claim, copyIndex, clock) && HasJob(c, key, job)) ==> out.reply.Refused? && out.state == c
    ensures
      var out := Step(c, OnCopy(CallRejectIntent(key, claim, copyIndex, reason)), clock);
      !(AtCursor(c, key, claim, copyIndex, clock) && key in c.intents && c.intents[key].job.None?) ==>
        out.reply.Refused? && out.state == c
  {
    CursorIff(c, key, claim, copyIndex, clock);
  }

  /** The manifest is stamped exactly under a live claim after the last Copy, while every captured day is retained. */
  lemma ManifestIff(c: State, g: int, claim: string, clock: Clock)
    requires Inv(c) && c.phase.Snapshot?
    ensures
      var out := Step(c, OnGate(CallPrepareManifest(g, claim)), clock);
      && (out.reply.Claimed? <==>
            && c.erasureStartedAt.None? && LiveClaim(c, g, claim, clock) && CaptureRetained(c, clock)
            && c.progress[g].next == CopyCount(CountCaptured(c, g)))
      && (if out.reply.Claimed? then out.state == Stamp(c, g, clock) else out.reply.Refused? && out.state == c)
  {
    LiveIff(c, g, claim, clock);
  }

  /** And exactly then the snapshot can be finished. */
  lemma FinishedIff(c: State, g: int, claim: string, clock: Clock)
    requires Inv(c)
    ensures
      var out := Step(c, OnGate(CallFinishSnapshot(g, claim)), clock);
      && (out.reply.Finished? <==>
            && LiveClaim(c, g, claim, clock) && CaptureRetained(c, clock) && c.progress[g].next == CopyCount(CountCaptured(c, g)))
      && (out.reply.Finished? || (out.reply.Refused? && out.state == c))
  {
    LiveIff(c, g, claim, clock);
    if LiveClaim(c, g, claim, clock) && c.progress[g].next == CopyCount(CountCaptured(c, g)) {
      NothingOutstandingAtEnd(c, g);
    }
  }

  /** What finishing leaves: the captured days and the links inside them are gone, and the gate is open. */
  lemma FinishClears(c: State, g: int, claim: string, clock: Clock)
    requires Inv(c) && Step(c, OnGate(CallFinishSnapshot(g, claim)), clock).reply.Finished?
    ensures
      var c1 := Step(c, OnGate(CallFinishSnapshot(g, claim)), clock).state;
      && g in c.captured && c1.phase.Open? && c1.captured == map[] && c1.progress == map[] && c1.check.None?
      && c1.dirty == (set d | d in c.dirty - c.captured[g] && clock.Retains(d))
      && c1.links == (set l | l in c.links && clock.Retains(l.a) && clock.Retains(l.b) && !(l.a in c.captured[g] && l.b in c.captured[g]))
  {
    LiveIff(c, g, claim, clock);
    FinishedIff(c, g, claim, clock);
    assert (c.captured - {g}).Keys == {} && (c.progress - {g}).Keys == {};
  }

  lemma RecoveryIff(c: State, g: int, claim: string, clock: Clock)
    requires Inv(c)
    ensures
      var out := Step(c, OnRecovery(CallRequireRecovery(g, claim)), clock);
      && (out.reply == Done <==> LiveClaim(c, g, claim, clock)) && (out.reply == Done || (out.reply.Refused? && out.state == c))
      && (out.reply == Done ==>
            out.state == if c.check.None? then c else c.(check := Some(c.check.value.(recoveryRequired := true))))
  {
    LiveIff(c, g, claim, clock);
  }

  // ---- the gate and the operator ----

  /** A request is answered with the drain, with the snapshot under way, or with an error if no day is dirty. */
  lemma RequestAnswers(c: State, clock: Clock)
    requires Inv(c) && c.erasureStartedAt.None? && c.failure.None?
    ensures
      var out := Step(c, OnGate(CallRequestSnapshot), clock);
      var dirty := exists d :: d in c.dirty && clock.Retains(d);
      && (out.reply == Nothing <==> c.phase.Snapshot?)
      && (out.reply.IsDraining? <==> !c.phase.Snapshot? && dirty)
      && (out.reply.IsDraining? ==> out.reply.activeDeliveries == |c.active|)
      && (out.reply.IsDraining? ==> out.state == if Admits(c, clock.now) then Closed(c, clock) else WithoutOldDays(c, clock))
  {
    RecoveredGate(c, clock);
    if !c.phase.Snapshot? {
      OutsideStartsFrom(c, clock);
      DirtyIff(c, clock);
    }
  }

  lemma DirtyIff(c: State, clock: Clock)
    ensures StartsFrom(c, clock).dirty != {} <==> exists d :: d in c.dirty && clock.Retains(d)
  {
    if d :| d in c.dirty && clock.Retains(d) {
      assert d in StartsFrom(c, clock).dirty;
    }
    if StartsFrom(c, clock).dirty != {} {
      var d :| d in StartsFrom(c, clock).dirty;
      assert d in c.dirty && clock.Retains(d);
    }
  }

  /** An operator may resume exactly a generation that failed, or one whose claim is over and whose check is blocked. */
  lemma ResumedIff(c: State, g: int, clock: Clock)
    requires Inv(c) && c.erasureStartedAt.None?
    ensures
      var out := Step(c, OnRecovery(CallResume(g)), clock);
      && (out.reply == Done <==>
            if c.failure.Some? then c.failure.value.generation == g
            else c.activeGeneration == Some(g) && LeaseOver(c, clock) && c.check.Some? && c.check.value.blocked.Some?)
      && (out.reply == Done || (out.reply.Refused? && out.state == c))
      && (out.reply == Done && c.failure.None? ==>
            out.state == c.(check := Some(Check(g, c.progress[g].next, clock.now, 0, 0, c.check.value.recoveryRequired, None))))
  {}

  // ---- erasure ----

  /** Nothing keeps an erasure waiting. */
  predicate NothingLeft(c: State) {
    c.active == map[] && !c.phase.Snapshot? && c.intents == map[]
  }

  /** An erasure begins once, and it is ready exactly when no delivery, snapshot or Copy is left. */
  lemma ErasureBegins(c: State, clock: Clock)
    requires Inv(c)
    ensures
      var out := Step(c, OnErasure(CallBeginErasure), clock);
      && out.state.erasureStartedAt == (if c.erasureStartedAt.Some? then c.erasureStartedAt else Some(clock.now))
      && out.reply.Erasure? && (out.reply.ready <==> NothingLeft(c))
      && (out.reply.ready ==> out.state.dirty == {} && out.state.links == {} && out.state.incomplete == {} && out.state.phase.Open?)
  {
    RecoveredGate(c, clock);
  }

  /** Asked later it is ready exactly then, and before it has begun nothing is reported. */
  lemma ErasureIsReported(c: State, clock: Clock)
    requires Inv(c)
    ensures
      var out := Step(c, OnErasure(CallGetErasureState), clock);
      && (out.reply == Nothing <==> c.erasureStartedAt.None?)
      && (c.erasureStartedAt.Some? ==> out.reply.Erasure? && (out.reply.ready <==> NothingLeft(c)))
      && (out.reply.Erasure? && !out.reply.ready ==>
            out.reply.activeDeliveries == |c.active| && out.reply.outstandingIntents == |c.intents|)
  {
    RecoveredGate(c, clock);
    ReportFrom(c, clock);
    RecoverShape(c, clock.now);
  }

  lemma ReportFrom(c: State, clock: Clock)
    requires RecoverAndPrune(c, clock).Ok?
    ensures
      var out, c1 := Step(c, OnErasure(CallGetErasureState), clock), RecoverAndPrune(c, clock).value;
      if c1.erasureStartedAt.None? then out == Outcome(c1, Nothing)
      else
        && out.reply.Erasure? && (out.reply.ready <==> c1.active == map[] && c1.activeGeneration.None? && c1.intents == map[])
        && (!out.reply.ready ==> out.reply.activeDeliveries == |c1.active| && out.reply.outstandingIntents == |c1.intents|)
  {}

  /** Behind the fence a job is attached, and an intent removed, whoever holds the claim. */
  lemma ErasureSettles(c: State, key: CopyKey, job: string, clock: Clock)
    requires KeyFault(key).None?
    ensures
      var out := Step(c, OnErasure(CallAttachErasureJob(key, job)), clock);
      && (out.reply == Done <==>
            c.erasureStartedAt.Some? && key in c.intents && (c.intents[key].job.None? || c.intents[key].job == Some(job)))
      && out.state == if out.reply == Done then c.(intents := c.intents[key := c.intents[key].(job := Some(job))]) else c
    ensures
      var out := Step(c, OnErasure(CallSettleErasureIntent(key, job)), clock);
      && (out.reply == Done <==> c.erasureStartedAt.Some? && HasJob(c, key, job))
      && out.state == if out.reply == Done then c.(intents := c.intents - {key}) else c
  {}

  /** And the active generation is abandoned exactly once no Copy is outstanding. */
  lemma ErasureAbandons(c: State, g: int, clock: Clock)
    requires Inv(c)
    ensures
      var out := Step(c, OnErasure(CallAbandonErasureSnapshot(g)), clock);
      && (out.reply.Retained? <==> c.erasureStartedAt.Some? && c.intents == map[] && c.activeGeneration == Some(g))
      && (if out.reply.Retained? then out.state == GivenUp(c, clock, None) else out.reply.Refused? && out.state == c)
  {
    AbandonAnswers(c, g, clock);
    if c.activeGeneration == Some(g) {
      CaptureRemoved(c, g, clock);
    } else {
      NotCaptured(c, g, clock);
    }
  }

  lemma AbandonAnswers(c: State, g: int, clock: Clock)
    ensures
      var out, failed := Step(c, OnErasure(CallAbandonErasureSnapshot(g)), clock), FailCapture(c, g, clock);
      if c.erasureStartedAt.Some? && c.intents == map[] && !failed.reply.Refused?
      then out == Outcome(failed.state.(check := None), failed.reply) else out.reply.Refused? && out.state == c
  {}

  lemma NotCaptured(c: State, g: int, clock: Clock)
    requires GateInv(c) && c.activeGeneration != Some(g)
    ensures FailCapture(c, g, clock).reply.Refused?
  {}
}
