/**
 * The coordinator object. Its fields are the tables; each method is one call, written with the
 * reads, checks and writes of the coordinator's transactions in their order, and proved to do to the
 * tables what the function of the same name in CoordinatorModel does. A transaction that throws
 * after writing puts the rows it wrote back.
 *
 * `Handle` is the single entry point. It keeps the log of calls the object has served, so whatever
 * is proved of runs holds of every object.
 */
module CoordinatorObject {
  import opened Contract
  import opened CopyPlan
  import opened CoordinatorModel
  import opened CoordinatorRuns
  import M = CoordinatorModel
  import DayGraph
  import DirtyGraphSelection

  class Coordinator {
    var lastSequence: nat
    var lastGeneration: nat
    var phase: Phase
    var activeGeneration: Option<int>
    var gateExpires: Option<int>
    var active: map<string, Reservation>
    var dirty: set<Day>
    var incomplete: set<Day>
    var links: set<Link>
    var captured: map<int, set<Day>>
    var progress: map<int, Progress>
    var intents: map<CopyKey, Intent>
    var check: Option<Check>
    var failure: Option<Failure>
    var erasureStartedAt: Option<int>
    ghost var log: seq<Event>

    /** The tables as one value. */
    function Tables(): State
      reads this
    {
      State(lastSequence, lastGeneration, phase, activeGeneration, gateExpires, active, dirty, incomplete,
            links, captured, progress, intents, check, failure, erasureStartedAt)
    }

    /** The tables are what the served calls made of them. */
    ghost predicate Valid()
      reads this
    {
      Tables() == After(log)
    }

    constructor ()
      ensures Valid() && log == []
    {
      lastSequence := 1;
      lastGeneration := 0;
      phase := Open;
      activeGeneration, gateExpires := None, None;
      active, dirty, incomplete, links := map[], {}, {}, {};
      captured, progress, intents := map[], map[], map[];
      check, failure, erasureStartedAt := None, None, None;
      log := [];
    }

    // ---- shared steps ----

    method OpenSnapshotGate()
      modifies `phase, `activeGeneration, `gateExpires
      ensures phase == Open && activeGeneration == None && gateExpires == None
    {
      phase := Open;
      activeGeneration := None;
      gateExpires := None;
    }

    method RecoverExpiredGate(now: int) returns (fault: Option<Fault>)
      modifies this
      ensures log == old(log)
      ensures fault.None? ==> RecoverGate(old(Tables()), now) == Ok(Tables())
      ensures fault.Some? ==> Tables() == old(Tables()) && RecoverGate(Tables(), now) == Err(fault.value)
    {
      if phase.Open? {
        return None;
      }
      if gateExpires.None? {
        return Some(LeaseMissing);
      }
      if phase.Snapshot? || now < gateExpires.value {
        return None;
      }
      captured := map[];
      OpenSnapshotGate();
      return None;
    }

    method PruneRetainedDays(clock: Clock)
      modifies this
      ensures log == old(log) && Tables() == Prune(old(Tables()), clock)
    {
      links := set l | l in links && clock.Retains(l.a) && clock.Retains(l.b);
      var kept := CapturedDays(Tables());
      incomplete := set d | d in incomplete && (clock.Retains(d) || d in kept);
      dirty := set d | d in dirty && (clock.Retains(d) || d in kept);
    }

    method RecoverMetadata(clock: Clock) returns (fault: Option<Fault>)
      modifies this
      ensures log == old(log)
      ensures fault.None? ==> RecoverAndPrune(old(Tables()), clock) == Ok(Tables())
      ensures fault.Some? ==> Tables() == old(Tables()) && RecoverAndPrune(Tables(), clock) == Err(fault.value)
    {
      fault := RecoverExpiredGate(clock.now);
      if fault.None? {
        PruneRetainedDays(clock);
      }
    }

    method MarkDirtyDays(days: set<Day>, asIncomplete: bool)
      modifies `dirty, `incomplete
      ensures dirty == old(dirty) + days
      ensures incomplete == if asIncomplete then old(incomplete) + days else old(incomplete)
    {
      var rest := days;
      while rest != {}
        invariant rest <= days
        invariant dirty == old(dirty) + (days - rest)
        invariant incomplete == if asIncomplete then old(incomplete) + (days - rest) else old(incomplete)
        decreases |rest|
      {
        DayGraph.NonEmpty(rest);
        var d :| d in rest;
        assert days - (rest - {d}) == (days - rest) + {d};
        dirty := dirty + {d};
        if asIncomplete {
          incomplete := incomplete + {d};
        }
        rest := rest - {d};
      }
      assert days - rest == days;
    }

    method DeleteReservation(id: string)
      modifies `active
      ensures active == old(active) - {id}
    {
      active := active - {id};
    }

    // ---- deliveries ----

    method Reserve(input: ReserveInput, clock: Clock) returns (reply: Reply)
      modifies this
      ensures log == old(log) && Outcome(Tables(), reply) == M.Reserve(old(Tables()), input, clock)
    {
      if |input.days| > MAX_DIRTY_DAYS {
        return Refused(TooManyDays);
      }
      if input.days == [] {
        return Refused(EmptyDaySet);
      }
      var fault := RecoverMetadata(clock);
      if fault.Some? {
        return Refused(fault.value);
      }
      if input.id in active {
        fault := MatchFault(active[input.id], input);
        if fault.Some? {
          return Refused(fault.value);
        }
        return Existing(active[input.id].sequence);
      }
      reply := ReserveNew(input, clock);
    }

    method ReserveNew(input: ReserveInput, clock: Clock) returns (reply: Reply)
      modifies `active, `lastSequence
      ensures Tables() == M.ReserveNew(old(Tables()), input, clock).state
      ensures reply == M.ReserveNew(old(Tables()), input, clock).reply
    {
      if erasureStartedAt.Some? {
        return Refused(ErasureStarted);
      }
      var fault := WindowFault(input, clock);
      if fault.Some? {
        return Refused(fault.value);
      }
      if !phase.Open? || |active| >= MAX_ACTIVE_DELIVERIES {
        return Nothing;
      }
      if lastSequence >= MAX_SAFE_INTEGER {
        return Refused(SequenceExhausted);
      }
      var before := active;
      var sequence := lastSequence + 1;
      active := active[input.id :=
        Reservation(input.payload, sequence, input.createdAt, input.expiresAt, DaySetOf(input.days))];
      assert PendingDays(Tables()) == PendingDays(InsertReservation(old(Tables()), input));
      if |PendingDays(Tables())| > MAX_DIRTY_DAYS {
        active := before;
        return Refused(DirtyDayLimit);
      }
      lastSequence := sequence;
      return Reserved(sequence);
    }

    method AcquireWrite(id: string, payload: string, clock: Clock) returns (reply: Reply)
      ensures Outcome(Tables(), reply) == M.AcquireWrite(Tables(), id, payload, clock)
    {
      var reservation := RequireReservation(Tables(), id, payload);
      if reservation.Err? {
        return Refused(reservation.error);
      }
      if clock.now >= reservation.value.expiresAt {
        return Refused(DeliveryExpired);
      }
      return Permit(HoldsPermit(Tables(), id));
    }

    method ReplaceDirtyDays(id: string, payload: string, days: seq<Day>, clock: Clock) returns (reply: Reply)
      modifies this
      ensures log == old(log) && Outcome(Tables(), reply) == M.ReplaceDirtyDays(old(Tables()), id, payload, days, clock)
    {
      if |days| > MAX_DIRTY_DAYS {
        return Refused(TooManyDays);
      }
      if exists d :: d in DaySetOf(days) && !clock.Retains(d) {
        return Refused(DayOutsideRetention);
      }
      var fault := PermitFault(Tables(), id, payload, clock);
      if fault.Some? {
        return Refused(fault.value);
      }
      var before := active;
      var inserted: set<Day> := {};
      for i := 0 to |days|
        invariant inserted == set d | d in days[..i]
      {
        inserted := inserted + {days[i]};
      }
      assert days[..|days|] == days;
      active := active[id := active[id].(days := inserted)];
      if |PendingDays(Tables())| > MAX_DIRTY_DAYS {
        active := before;
        return Refused(DirtyDayLimit);
      }
      return DaysPlanned(inserted);
    }

    method LinkDirtyDays(id: string, payload: string, moves: seq<Move>, clock: Clock) returns (reply: Reply)
      modifies this
      ensures log == old(log) && Outcome(Tables(), reply) == M.LinkDirtyDays(old(Tables()), id, payload, moves, clock)
    {
      var fault := MovesFault(moves, clock);
      if fault.Some? {
        return Refused(fault.value);
      }
      fault := PermitFault(Tables(), id, payload, clock);
      if fault.Some? {
        return Refused(fault.value);
      }
      var before := links;
      var inside := InsertLinks(moves, active[id].days);
      if !inside {
        links := before;
        return Refused(LinkOutsideDelivery);
      }
      if |LinkNodes(links)| > MAX_LINK_NODES {
        links := before;
        return Refused(LinkNodeLimit);
      }
      if |links| > MAX_LINKS {
        links := before;
        return Refused(LinkLimit);
      }
      return LinksAdded(|LinksOf(moves)|);
    }

    /** Inserts the links of a delivery, stopping at the first one that leaves its days. */
    method InsertLinks(moves: seq<Move>, days: set<Day>) returns (inside: bool)
      modifies `links
      ensures inside <==> LinkNodes(LinksOf(moves)) <= days
      ensures inside ==> links == old(links) + LinksOf(moves)
    {
      for i := 0 to |moves|
        invariant links == old(links) + LinksOf(moves[..i])
        invariant LinkNodes(LinksOf(moves[..i])) <= days
      {
        var link := LinkOf(moves[i]);
        if link.a !in days || link.b !in days {
          EndsAreNodes(moves, moves[i]);
          return false;
        }
        OneMoreLink(moves, i);
        links := links + {link};
      }
      assert moves[..|moves|] == moves;
      return true;
    }

    method PlanWrite(id: string, payload: string, days: seq<Day>, moves: seq<Move>, clock: Clock) returns (reply: Reply)
      modifies this
      ensures log == old(log) && Outcome(Tables(), reply) == M.PlanWrite(old(Tables()), id, payload, days, moves, clock)
    {
      reply := ReplaceDirtyDays(id, payload, days, clock);
      if !reply.Refused? && moves != [] {
        var linked := LinkDirtyDays(id, payload, moves, clock);
        if linked.Refused? {
          reply := linked;
        }
      }
    }

    method Complete(id: string, payload: string, clock: Clock) returns (reply: Reply)
      modifies this
      ensures log == old(log) && Outcome(Tables(), reply) == M.Complete(old(Tables()), id, payload, clock)
    {
      var reservation := RequireReservation(Tables(), id, payload);
      if reservation.Err? {
        return Refused(reservation.error);
      }
      MarkDirtyDays(reservation.value.days, false);
      DeleteReservation(id);
      PruneRetainedDays(clock);
      return Left(reservation.value.sequence, reservation.value.days);
    }

    method FinishDelivery(id: string, payload: string, hasReservation: bool, planned: set<Day>, clock: Clock)
      returns (reply: Reply)
      modifies this
      ensures log == old(log)
      ensures Outcome(Tables(), reply) == M.FinishDelivery(old(Tables()), id, payload, hasReservation, planned, clock)
    {
      if !hasReservation {
        return Done;
      }
      reply := Complete(id, payload, clock);
      if reply.Left? && reply.days != planned {
        return Refused(CompletedDaysMismatch);
      }
    }

    method Expire(id: string, payload: string, clock: Clock) returns (reply: Reply)
      modifies this
      ensures log == old(log) && Outcome(Tables(), reply) == M.Expire(old(Tables()), id, payload, clock)
    {
      var reservation := RequireReservation(Tables(), id, payload);
      if reservation.Err? {
        return Refused(reservation.error);
      }
      if clock.now < reservation.value.expiresAt {
        return Refused(DeliveryNotExpired);
      }
      MarkDirtyDays(reservation.value.days, true);
      DeleteReservation(id);
      PruneRetainedDays(clock);
      return Left(reservation.value.sequence, reservation.value.days);
    }

    method ResolveIncompleteDays(days: seq<Day>) returns (reply: Reply)
      modifies this
      ensures log == old(log) && Outcome(Tables(), reply) == M.ResolveIncompleteDays(old(Tables()), days)
    {
      if |days| > MAX_DIRTY_DAYS {
        return Refused(TooManyDays);
      }
      if days == [] {
        return Refused(EmptyDaySet);
      }
      for i := 0 to |days|
        invariant forall k :: 0 <= k < i ==> days[k] in incomplete
      {
        if days[i] !in incomplete {
          assert days[i] in DaySetOf(days);
          return Refused(NotIncomplete);
        }
      }
      for i := 0 to |days|
        invariant log == old(log)
        invariant Tables() == old(Tables()).(incomplete := old(incomplete) - DaySetOf(days[..i]))
      {
        assert DaySetOf(days[..i + 1]) == DaySetOf(days[..i]) + {days[i]};
        incomplete := incomplete - {days[i]};
      }
      assert days[..|days|] == days;
      return DaysResolved(|DaySetOf(days)|);
    }

    // ---- the gate ----

    method RequestSnapshot(clock: Clock) returns (reply: Reply)
      modifies this
      ensures log == old(log) && Outcome(Tables(), reply) == M.RequestSnapshot(old(Tables()), clock)
    {
      if erasureStartedAt.Some? {
        return Refused(ErasureStarted);
      }
      if failure.Some? {
        return Refused(FailurePending);
      }
      var fault := RecoverMetadata(clock);
      if fault.Some? {
        return Refused(fault.value);
      }
      if phase.Snapshot? {
        return Nothing;
      }
      if dirty == {} {
        return Refused(NoDirtyDays);
      }
      if phase.Open? {
        phase := Draining;
        gateExpires := Some(clock.now + SNAPSHOT_LEASE_MS);
      }
      return IsDraining(|active|);
    }

    method BeginSnapshot(claim: string, clock: Clock) returns (reply: Reply)
      modifies this
      ensures log == old(log) && Outcome(Tables(), reply) == M.BeginSnapshot(old(Tables()), claim, clock)
    {
      if erasureStartedAt.Some? {
        return Refused(ErasureStarted);
      }
      if failure.Some? {
        return Refused(FailurePending);
      }
      var fault := RecoverMetadata(clock);
      if fault.Some? {
        return Refused(fault.value);
      }
      reply := CaptureDirtyDays(claim, clock);
    }

    method CaptureDirtyDays(claim: string, clock: Clock) returns (reply: Reply)
      modifies `captured, `lastGeneration, `phase, `activeGeneration, `progress, `gateExpires
      ensures Tables() == M.CaptureDirtyDays(old(Tables()), claim, clock).state
      ensures reply == M.CaptureDirtyDays(old(Tables()), claim, clock).reply
    {
      if phase.Snapshot? || active != map[] {
        return Nothing;
      }
      var days := DirtyGraphSelection.SelectSnapshotDirtyDays(dirty, incomplete, links);
      ghost var selected := DayGraph.Select(dirty, incomplete, links);
      SelectedNonEmpty(days, selected);
      if days == [] {
        OpenSnapshotGate();
        return Refused(NoCompleteDirtyDays);
      }
      if lastGeneration >= MAX_SAFE_INTEGER {
        return Refused(GenerationExhausted);
      }
      var generation := lastGeneration + 1;
      Capture(days, selected, generation, claim, clock);
      return Begun(generation, captured[generation]);
    }

    /** Inserts the captured days one by one, closes the gate on them and starts their progress. */
    method Capture(days: seq<Day>, ghost selected: set<Day>, generation: nat, claim: string, clock: Clock)
      requires DirtyGraphSelection.DaySet(days) == selected
      modifies `captured, `lastGeneration, `phase, `activeGeneration, `progress, `gateExpires
      ensures captured == old(captured)[generation := selected] && lastGeneration == generation
      ensures phase == Snapshot && activeGeneration == Some(generation)
      ensures gateExpires == Some(clock.now + SNAPSHOT_LEASE_MS)
      ensures progress == old(progress)[generation := Progress(0, claim, None)]
    {
      var inserted: set<Day> := {};
      for i := 0 to |days|
        invariant inserted == DirtyGraphSelection.DaySet(days[..i])
      {
        assert DirtyGraphSelection.DaySet(days[..i + 1]) == DirtyGraphSelection.DaySet(days[..i]) + {days[i]};
        inserted := inserted + {days[i]};
      }
      assert days[..|days|] == days;
      captured := captured[generation := inserted];
      lastGeneration := generation;
      phase := Snapshot;
      activeGeneration := Some(generation);
      progress := progress[generation := Progress(0, claim, None)];
      gateExpires := Some(clock.now + SNAPSHOT_LEASE_MS);
    }

    method PrepareManifest(generation: int, claim: string, clock: Clock) returns (reply: Reply)
      modifies this
      ensures log == old(log) && Outcome(Tables(), reply) == M.PrepareManifest(old(Tables()), generation, claim, clock)
    {
      if erasureStartedAt.Some? {
        return Refused(ErasureStarted);
      }
      var fault := RecoverExpiredGate(clock.now);
      if fault.None? {
        fault := ActiveFault(Tables(), generation, clock);
      }
      if fault.Some? {
        return Refused(fault.value);
      }
      var view := AssertClaim(Tables(), generation, claim, clock);
      if view.Err? {
        return Refused(view.error);
      }
      if view.value.next != view.value.total {
        return Refused(CopiesIncomplete);
      }
      assert generation in progress;
      var row := progress[generation];
      if row.manifestAt.None? {
        row := row.(manifestAt := Some(clock.now));
      }
      progress := progress[generation := row];
      return Claimed(view.value.(manifestAt := row.manifestAt));
    }

    method RemoveCapture(generation: int, clock: Clock)
      modifies this
      ensures log == old(log) && Tables() == M.RemoveCapture(old(Tables()), generation, clock)
    {
      captured := captured - {generation};
      progress := progress - {generation};
      OpenSnapshotGate();
      PruneRetainedDays(clock);
    }

    method FinishSnapshot(generation: int, claim: string, clock: Clock) returns (reply: Reply)
      modifies this
      ensures log == old(log) && Outcome(Tables(), reply) == M.FinishSnapshot(old(Tables()), generation, claim, clock)
    {
      var view := AssertClaim(Tables(), generation, claim, clock);
      if view.Err? {
        return Refused(view.error);
      }
      var fault := ActiveFault(Tables(), generation, clock);
      if fault.Some? {
        return Refused(fault.value);
      }
      if view.value.next != view.value.total {
        return Refused(CopiesIncomplete);
      }
      if intents != map[] {
        return Refused(OutstandingIntents);
      }
      var cleared := CountCaptured(Tables(), generation);
      var days := if generation in captured then captured[generation] else {};
      links := set l | l in links && !(l.a in days && l.b in days);
      dirty := dirty - days;
      RemoveCapture(generation, clock);
      check := None;
      return Finished(generation, cleared);
    }

    method FailCapture(generation: int, clock: Clock) returns (reply: Reply)
      modifies this
      ensures log == old(log) && Outcome(Tables(), reply) == M.FailCapture(old(Tables()), generation, clock)
    {
      var fault := RecoverExpiredGate(clock.now);
      if fault.Some? {
        return Refused(fault.value);
      }
      if !phase.Snapshot? || activeGeneration != Some(generation) {
        return Refused(NotActive);
      }
      var retained := CountCaptured(Tables(), generation);
      RemoveCapture(generation, clock);
      return Retained(generation, retained);
    }

    method RollbackDeliveries(before: State)
      modifies `lastSequence, `active, `dirty, `incomplete, `links, `failure, `erasureStartedAt
      ensures lastSequence == before.lastSequence && active == before.active && dirty == before.dirty
      ensures incomplete == before.incomplete && links == before.links && failure == before.failure
      ensures erasureStartedAt == before.erasureStartedAt
    {
      lastSequence, active, dirty := before.lastSequence, before.active, before.dirty;
      incomplete, links := before.incomplete, before.links;
      failure, erasureStartedAt := before.failure, before.erasureStartedAt;
    }

    /** Puts every table back as it was when a transaction began. */
    method Rollback(before: State)
      modifies this
      ensures log == old(log) && Tables() == before
    {
      RollbackDeliveries(before);
      lastGeneration, phase, activeGeneration := before.lastGeneration, before.phase, before.activeGeneration;
      gateExpires, captured, progress := before.gateExpires, before.captured, before.progress;
      intents, check := before.intents, before.check;
    }

    method FailSnapshot(generation: int, claim: string, reason: Option<string>, clock: Clock) returns (reply: Reply)
      modifies this
      ensures log == old(log)
      ensures Outcome(Tables(), reply) == M.FailSnapshot(old(Tables()), generation, claim, reason, clock)
    {
      var view := AssertClaim(Tables(), generation, claim, clock);
      if view.Err? {
        return Refused(view.error);
      }
      if intents != map[] {
        return Refused(OutstandingIntents);
      }
      var before := Tables();
      reply := FailCapture(generation, clock);
      if reply.Refused? {
        Rollback(before);
        return;
      }
      check := None;
      if reason.Some? {
        if failure.Some? {
          Rollback(before);
          return Refused(FailureCollision);
        }
        failure := Some(Failure(generation, reason.value, clock.now));
      }
    }

    method GetStats(clock: Clock) returns (reply: Reply)
      modifies this
      ensures log == old(log) && Outcome(Tables(), reply) == M.GetStats(old(Tables()), clock)
    {
      var fault := RecoverMetadata(clock);
      if fault.Some? {
        return Refused(fault.value);
      }
      return Done;
    }

    // ---- the claim ----

    method ClaimSnapshot(claim: string, clock: Clock) returns (reply: Reply)
      modifies this
      ensures log == old(log) && Outcome(Tables(), reply) == M.ClaimSnapshot(old(Tables()), claim, clock)
    {
      if erasureStartedAt.Some? {
        return Refused(ErasureStarted);
      }
      if !phase.Snapshot? || activeGeneration.None? {
        return Refused(NotActive);
      }
      var generation := activeGeneration.value;
      var view := ReadProgress(Tables(), generation);
      if view.Err? {
        return Refused(view.error);
      }
      if view.value.claim != claim && clock.now < view.value.claimExpiresAt {
        return Nothing;
      }
      var before := Tables();
      progress := progress[generation := progress[generation].(claim := claim)];
      gateExpires := Some(clock.now + SNAPSHOT_LEASE_MS);
      view := ReadProgress(Tables(), generation);
      if view.Err? {
        Rollback(before);
        return Refused(view.error);
      }
      return Claimed(view.value);
    }

    method GetProgress(generation: int, claim: string, clock: Clock) returns (reply: Reply)
      ensures Outcome(Tables(), reply) == M.GetProgress(Tables(), generation, claim, clock)
    {
      var view := AssertClaim(Tables(), generation, claim, clock);
      return if view.Err? then Refused(view.error) else Claimed(view.value);
    }

    method SetLease(generation: int, claim: string, clock: Clock, expires: int) returns (reply: Reply)
      modifies this
      ensures log == old(log)
      ensures Outcome(Tables(), reply) == M.SetLease(old(Tables()), generation, claim, clock, expires)
    {
      var view := AssertClaim(Tables(), generation, claim, clock);
      if view.Err? {
        return Refused(view.error);
      }
      var before := Tables();
      gateExpires := Some(expires);
      view := ReadProgress(Tables(), generation);
      if view.Err? {
        Rollback(before);
        return Refused(view.error);
      }
      return Claimed(view.value);
    }

    method RenewClaim(generation: int, claim: string, clock: Clock) returns (reply: Reply)
      modifies this
      ensures log == old(log) && Outcome(Tables(), reply) == M.RenewClaim(old(Tables()), generation, claim, clock)
    {
      if erasureStartedAt.Some? {
        return Refused(ErasureStarted);
      }
      reply := SetLease(generation, claim, clock, clock.now + SNAPSHOT_LEASE_MS);
    }

    method ReleaseClaim(generation: int, claim: string, clock: Clock) returns (reply: Reply)
      modifies this
      ensures log == old(log) && Outcome(Tables(), reply) == M.ReleaseClaim(old(Tables()), generation, claim, clock)
    {
      reply := SetLease(generation, claim, clock, clock.now);
    }

    method AssertSnapshotActive(generation: int, claim: string, clock: Clock) returns (reply: Reply)
      ensures Outcome(Tables(), reply) == M.AssertSnapshotActive(Tables(), generation, claim, clock)
    {
      if erasureStartedAt.Some? {
        return Refused(ErasureStarted);
      }
      var view := AssertClaim(Tables(), generation, claim, clock);
      if view.Err? {
        return Refused(view.error);
      }
      var fault := ActiveFault(Tables(), generation, clock);
      if fault.Some? {
        return Refused(fault.value);
      }
      return IsActive(generation, gateExpires.value);
    }

    // ---- Copy intents ----

    method RecordIntent(key: CopyKey, claim: string, copyIndex: int, startedAt: int, clock: Clock) returns (reply: Reply)
      modifies this
      ensures log == old(log)
      ensures Outcome(Tables(), reply) == M.RecordIntent(old(Tables()), key, claim, copyIndex, startedAt, clock)
    {
      if erasureStartedAt.Some? {
        return Refused(ErasureStarted);
      }
      var fault := CursorFault(Tables(), key, claim, copyIndex, clock);
      if fault.None? {
        fault := KeyFault(key);
      }
      if fault.Some? {
        return Refused(fault.value);
      }
      if key in intents {
        return Refused(IntentExists);
      }
      if |intents| >= MAX_OUTSTANDING_INTENTS {
        return Refused(IntentLimit);
      }
      intents := intents[key := Intent(startedAt, None)];
      check := Some(Check(key.generation, copyIndex, clock.now + FIRST_CHECK_MS, 0, 0, false, None));
      return Done;
    }

    method AttachJobTo(key: CopyKey, job: string) returns (reply: Reply)
      modifies `intents
      ensures Outcome(Tables(), reply) == M.AttachJobTo(old(Tables()), key, job)
    {
      var fault := KeyFault(key);
      if fault.Some? {
        return Refused(fault.value);
      }
      if key !in intents {
        return Refused(UnknownIntent);
      }
      var stored := intents[key];
      if stored.job.Some? && stored.job != Some(job) {
        return Refused(DifferentJob);
      }
      intents := intents[key := stored.(job := Some(job))];
      return Done;
    }

    method AttachJob(key: CopyKey, claim: string, copyIndex: int, job: string, clock: Clock) returns (reply: Reply)
      modifies this
      ensures log == old(log) && Outcome(Tables(), reply) == M.AttachJob(old(Tables()), key, claim, copyIndex, job, clock)
    {
      var fault := CursorFault(Tables(), key, claim, copyIndex, clock);
      if fault.Some? {
        return Refused(fault.value);
      }
      reply := AttachJobTo(key, job);
      if !reply.Refused? && check.Some? {
        check := Some(check.value.(recoveryRequired := false));
      }
    }

    method RemoveIntent(key: CopyKey, job: Option<string>, mismatch: Fault) returns (reply: Reply)
      modifies `intents
      ensures Outcome(Tables(), reply) == M.RemoveIntent(old(Tables()), key, job, mismatch)
    {
      var fault := KeyFault(key);
      if fault.Some? {
        return Refused(fault.value);
      }
      if key !in intents {
        return Refused(UnknownIntent);
      }
      if intents[key].job != job {
        return Refused(mismatch);
      }
      intents := intents - {key};
      return Done;
    }

    method FailWith(before: State, generation: int, reason: string, clock: Clock) returns (reply: Reply)
      modifies this
      ensures log == old(log)
      ensures Outcome(Tables(), reply) == M.FailWith(old(Tables()), before, generation, reason, clock)
    {
      reply := FailCapture(generation, clock);
      if reply.Refused? {
        Rollback(before);
        return;
      }
      check := None;
      if failure.Some? {
        Rollback(before);
        return Refused(FailureCollision);
      }
      failure := Some(Failure(generation, reason, clock.now));
      return Done;
    }

    method SettleIntent(key: CopyKey, claim: string, copyIndex: int, job: string, succeeded: bool, clock: Clock)
      returns (reply: Reply)
      modifies this
      ensures log == old(log)
      ensures Outcome(Tables(), reply) == M.SettleIntent(old(Tables()), key, claim, copyIndex, job, succeeded, clock)
    {
      var fault := CursorFault(Tables(), key, claim, copyIndex, clock);
      if fault.Some? {
        return Refused(fault.value);
      }
      var before := Tables();
      reply := RemoveIntent(key, Some(job), JobMismatch);
      if reply.Refused? {
        return;
      }
      if succeeded {
        // The guarded update always finds its row: the cursor check above read the same one.
        var row := progress[key.generation];
        progress := progress[key.generation := row.(next := row.next + 1)];
        check := None;
        return Done;
      }
      reply := FailWith(before, key.generation, "Snapshot Copy job " + job + " failed", clock);
    }

    method RejectIntent(key: CopyKey, claim: string, copyIndex: int, reason: string, clock: Clock) returns (reply: Reply)
      modifies this
      ensures log == old(log)
      ensures Outcome(Tables(), reply) == M.RejectIntent(old(Tables()), key, claim, copyIndex, reason, clock)
    {
      var fault := CursorFault(Tables(), key, claim, copyIndex, clock);
      if fault.Some? {
        return Refused(fault.value);
      }
      var before := Tables();
      reply := RemoveIntent(key, None, StartedCopy);
      if !reply.Refused? {
        reply := FailWith(before, key.generation, reason, clock);
      }
    }

    // ---- checks and operator recovery ----

    method PrepareCheck(generation: int, claim: string, copyIndex: nat, recovery: bool, clock: Clock)
      returns (reply: Reply)
      modifies this
      ensures log == old(log)
      ensures Outcome(Tables(), reply) == M.PrepareCheck(old(Tables()), generation, claim, copyIndex, recovery, clock)
    {
      var view := AssertClaim(Tables(), generation, claim, clock);
      if view.Err? {
        return Refused(view.error);
      }
      if view.value.next != copyIndex {
        return Refused(StaleCheck);
      }
      var row := if check.Some? then check.value else Check(generation, copyIndex, clock.now, 0, 0, false, None);
      if row.generation != generation || row.copyIndex != copyIndex {
        return Refused(CheckMismatch);
      }
      check := Some(row);
      if row.blocked.Some? || row.nextCheckAt > clock.now {
        return CheckResult(false, row);
      }
      var attempts := if recovery then row.recoveryChecks else row.statusChecks;
      if attempts >= (if recovery then RECOVERY_CHECK_BUDGET else STATUS_CHECK_BUDGET) {
        row := row.(blocked := Some(if recovery then ReceiptNotRecovered else StatusBudgetExceeded));
        check := Some(row);
        return CheckResult(false, row);
      }
      if recovery {
        row := row.(recoveryChecks := row.recoveryChecks + 1, recoveryRequired := true);
      } else {
        row := row.(statusChecks := row.statusChecks + 1, recoveryRequired := false);
      }
      row := row.(nextCheckAt := clock.now + CheckDelay(recovery, attempts));
      check := Some(row);
      return CheckResult(true, row);
    }

    method RequireRecovery(generation: int, claim: string, clock: Clock) returns (reply: Reply)
      modifies this
      ensures log == old(log) && Outcome(Tables(), reply) == M.RequireRecovery(old(Tables()), generation, claim, clock)
    {
      var view := AssertClaim(Tables(), generation, claim, clock);
      if view.Err? {
        return Refused(view.error);
      }
      if check.Some? {
        check := Some(check.value.(recoveryRequired := true));
      }
      return Done;
    }

    method AbandonUnstarted(generation: int, reason: string, key: CopyKey, startedAt: int, clock: Clock)
      returns (reply: Reply)
      modifies this
      ensures log == old(log)
      ensures Outcome(Tables(), reply) == M.AbandonUnstarted(old(Tables()), generation, reason, key, startedAt, clock)
    {
      if erasureStartedAt.Some? {
        return Refused(ErasureStarted);
      }
      if failure.Some? || !phase.Snapshot? || activeGeneration != Some(generation)
         || gateExpires.None? || gateExpires.value > clock.now
         || check.None? || check.value.generation != generation
         || check.value.blocked != Some(ReceiptNotRecovered)
         || intents != map[key := Intent(startedAt, None)] || key.generation != generation {
        return Refused(NotUnstarted);
      }
      var before := Tables();
      reply := RemoveIntent(key, None, StartedCopy);
      if !reply.Refused? {
        reply := FailWith(before, generation, reason, clock);
      }
    }

    method Resume(generation: int, clock: Clock) returns (reply: Reply)
      modifies this
      ensures log == old(log) && Outcome(Tables(), reply) == M.Resume(old(Tables()), generation, clock)
    {
      if erasureStartedAt.Some? {
        return Refused(ErasureStarted);
      }
      if failure.Some? {
        if failure.value.generation != generation {
          return Refused(NotRecoverable);
        }
        failure := None;
        return Done;
      }
      if activeGeneration != Some(generation) || gateExpires.None? || gateExpires.value > clock.now {
        return Refused(NotRecoverable);
      }
      if check.None? || check.value.generation != generation || check.value.blocked.None? {
        return Refused(NoBlockedCheck);
      }
      check := Some(check.value.(statusChecks := 0, recoveryChecks := 0, blocked := None, nextCheckAt := clock.now));
      return Done;
    }

    // ---- erasure ----

    method ClearErasedMetadata()
      modifies `links, `dirty, `incomplete, `captured, `progress, `phase, `activeGeneration, `gateExpires
      ensures links == {} && dirty == {} && incomplete == {} && captured == map[] && progress == map[]
      ensures phase == Open && activeGeneration == None && gateExpires == None
    {
      links, dirty, incomplete := {}, {}, {};
      captured, progress := map[], map[];
      OpenSnapshotGate();
    }

    method SettleErasureState() returns (reply: Reply)
      requires erasureStartedAt.Some?
      modifies `links, `dirty, `incomplete, `captured, `progress, `phase, `activeGeneration, `gateExpires
      ensures Tables() == M.SettleErasureState(old(Tables())).state
      ensures reply == M.SettleErasureState(old(Tables())).reply
    {
      if active != map[] || activeGeneration.Some? || intents != map[] {
        return Erasure(false, |active|, |incomplete|, |intents|);
      }
      ClearErasedMetadata();
      return Erasure(true, 0, 0, 0);
    }

    method BeginErasure(clock: Clock) returns (reply: Reply)
      modifies this
      ensures log == old(log) && Outcome(Tables(), reply) == M.BeginErasure(old(Tables()), clock)
    {
      var fault := RecoverMetadata(clock);
      if fault.Some? {
        return Refused(fault.value);
      }
      if erasureStartedAt.None? {
        erasureStartedAt := Some(clock.now);
      }
      reply := SettleErasureState();
    }

    method GetErasureState(clock: Clock) returns (reply: Reply)
      modifies this
      ensures log == old(log) && Outcome(Tables(), reply) == M.GetErasureState(old(Tables()), clock)
    {
      var fault := RecoverMetadata(clock);
      if fault.Some? {
        return Refused(fault.value);
      }
      if erasureStartedAt.None? {
        return Nothing;
      }
      reply := SettleErasureState();
    }

    method AttachErasureJob(key: CopyKey, job: string) returns (reply: Reply)
      modifies this
      ensures log == old(log) && Outcome(Tables(), reply) == M.AttachErasureJob(old(Tables()), key, job)
    {
      if erasureStartedAt.None? {
        return Refused(ErasureNotStarted);
      }
      reply := AttachJobTo(key, job);
    }

    method SettleErasureIntent(key: CopyKey, job: string) returns (reply: Reply)
      modifies this
      ensures log == old(log) && Outcome(Tables(), reply) == M.SettleErasureIntent(old(Tables()), key, job)
    {
      if erasureStartedAt.None? {
        return Refused(ErasureNotStarted);
      }
      reply := RemoveIntent(key, Some(job), JobMismatch);
    }

    method AbandonErasureSnapshot(generation: int, clock: Clock) returns (reply: Reply)
      modifies this
      ensures log == old(log) && Outcome(Tables(), reply) == M.AbandonErasureSnapshot(old(Tables()), generation, clock)
    {
      if erasureStartedAt.None? {
        return Refused(ErasureNotStarted);
      }
      if intents != map[] {
        return Refused(OutstandingIntents);
      }
      var before := Tables();
      reply := FailCapture(generation, clock);
      if reply.Refused? {
        Rollback(before);
        return;
      }
      check := None;
    }

    // ---- the entry point ----

    method HandleDelivery(call: DeliveryCall, clock: Clock) returns (reply: Reply)
      modifies this
      ensures log == old(log) && Outcome(Tables(), reply) == DeliveryStep(old(Tables()), call, clock)
    {
      match call
      case CallReserve(input) => reply := Reserve(input, clock);
      case CallAcquireWrite(id, payload) => reply := AcquireWrite(id, payload, clock);
      case CallPlanWrite(id, payload, days, moves) => reply := PlanWrite(id, payload, days, moves, clock);
      case CallLinkDirtyDays(id, payload, moves) => reply := LinkDirtyDays(id, payload, moves, clock);
      case CallFinishDelivery(id, payload, has, planned) => reply := FinishDelivery(id, payload, has, planned, clock);
      case CallExpire(id, payload) => reply := Expire(id, payload, clock);
      case CallResolveIncompleteDays(days) => reply := ResolveIncompleteDays(days);
    }

    method HandleGate(call: GateCall, clock: Clock) returns (reply: Reply)
      modifies this
      ensures log == old(log) && Outcome(Tables(), reply) == GateStep(old(Tables()), call, clock)
    {
      match call
      case CallRequestSnapshot => reply := RequestSnapshot(clock);
      case CallBeginSnapshot(claim) => reply := BeginSnapshot(claim, clock);
      case CallPrepareManifest(g, claim) => reply := PrepareManifest(g, claim, clock);
      case CallFinishSnapshot(g, claim) => reply := FinishSnapshot(g, claim, clock);
      case CallFailSnapshot(g, claim, reason) => reply := FailSnapshot(g, claim, reason, clock);
      case CallGetStats => reply := GetStats(clock);
    }

    method HandleLease(call: LeaseCall, clock: Clock) returns (reply: Reply)
      modifies this
      ensures log == old(log) && Outcome(Tables(), reply) == LeaseStep(old(Tables()), call, clock)
    {
      match call
      case CallClaimSnapshot(claim) => reply := ClaimSnapshot(claim, clock);
      case CallGetProgress(g, claim) => reply := GetProgress(g, claim, clock);
      case CallRenewClaim(g, claim) => reply := RenewClaim(g, claim, clock);
      case CallReleaseClaim(g, claim) => reply := ReleaseClaim(g, claim, clock);
      case CallAssertActive(g, claim) => reply := AssertSnapshotActive(g, claim, clock);
    }

    method HandleCopy(call: CopyCall, clock: Clock) returns (reply: Reply)
      modifies this
      ensures log == old(log) && Outcome(Tables(), reply) == CopyStep(old(Tables()), call, clock)
    {
      match call
      case CallRecordIntent(key, claim, i, startedAt) => reply := RecordIntent(key, claim, i, startedAt, clock);
      case CallAttachJob(key, claim, i, job) => reply := AttachJob(key, claim, i, job, clock);
      case CallSettleIntent(key, claim, i, job, ok) => reply := SettleIntent(key, claim, i, job, ok, clock);
      case CallRejectIntent(key, claim, i, reason) => reply := RejectIntent(key, claim, i, reason, clock);
    }

    method HandleRecovery(call: RecoveryCall, clock: Clock) returns (reply: Reply)
      modifies this
      ensures log == old(log) && Outcome(Tables(), reply) == RecoveryStep(old(Tables()), call, clock)
    {
      match call
      case CallPrepareCheck(g, claim, i, recovery) => reply := PrepareCheck(g, claim, i, recovery, clock);
      case CallRequireRecovery(g, claim) => reply := RequireRecovery(g, claim, clock);
      case CallAbandonUnstarted(g, reason, key, startedAt) => reply := AbandonUnstarted(g, reason, key, startedAt, clock);
      case CallResume(g) => reply := Resume(g, clock);
    }

    method HandleErasure(call: ErasureCall, clock: Clock) returns (reply: Reply)
      modifies this
      ensures log == old(log) && Outcome(Tables(), reply) == ErasureStep(old(Tables()), call, clock)
    {
      match call
      case CallBeginErasure => reply := BeginErasure(clock);
      case CallGetErasureState => reply := GetErasureState(clock);
      case CallAttachErasureJob(key, job) => reply := AttachErasureJob(key, job);
      case CallSettleErasureIntent(key, job) => reply := SettleErasureIntent(key, job);
      case CallAbandonErasureSnapshot(g) => reply := AbandonErasureSnapshot(g, clock);
    }

    /** Serves one call and logs it. */
    method Handle(call: Call, clock: Clock) returns (reply: Reply)
      requires Valid()
      modifies this
      ensures Valid() && log == old(log) + [Event(call, clock)]
      ensures reply == ReplyAt(log, |log| - 1)
    {
      match call {
        case OnDelivery(delivery) => reply := HandleDelivery(delivery, clock);
        case OnGate(gate) => reply := HandleGate(gate, clock);
        case OnLease(lease) => reply := HandleLease(lease, clock);
        case OnCopy(copy) => reply := HandleCopy(copy, clock);
        case OnRecovery(recovery) => reply := HandleRecovery(recovery, clock);
        case OnErasure(erasure) => reply := HandleErasure(erasure, clock);
      }
      log := log + [Event(call, clock)];
      assert log[..|log| - 1] == old(log);
    }
  }

  lemma EndsAreNodes(moves: seq<Move>, move: Move)
    requires move in moves
    ensures LinkOf(move).a in LinkNodes(LinksOf(moves)) && LinkOf(move).b in LinkNodes(LinksOf(moves))
  {
    assert LinkOf(move) in LinksOf(moves);
  }

  lemma OneMoreLink(moves: seq<Move>, i: nat)
    requires i < |moves|
    ensures LinksOf(moves[..i + 1]) == LinksOf(moves[..i]) + {LinkOf(moves[i])}
    ensures LinkNodes(LinksOf(moves[..i + 1])) ==
      LinkNodes(LinksOf(moves[..i])) + {LinkOf(moves[i]).a, LinkOf(moves[i]).b}
  {
    assert moves[..i + 1] == moves[..i] + [moves[i]];
    assert LinksOf(moves[..i + 1]) == LinksOf(moves[..i]) + {LinkOf(moves[i])};
  }

  lemma SelectedNonEmpty(days: seq<Day>, selected: set<Day>)
    requires DirtyGraphSelection.DaySet(days) == selected
    ensures days == [] <==> selected == {}
  {
    if days != [] {
      assert days[0] in selected;
    }
  }
}
