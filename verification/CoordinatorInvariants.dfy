/**
 * The coordinator's invariant, kept by every public call in every state, and what follows from it:
 * the frozen capture, the single Copy intent at the cursor, and the errors that cannot happen.
 */
module CoordinatorInvariants {
  import opened Contract
  import opened CopyPlan
  import opened CoordinatorModel
  import DayGraph

  /** The gate row agrees with itself. */
  ghost predicate GateInv(c: State) {
    && (c.phase.Snapshot? <==> c.activeGeneration.Some?)
    && (c.phase.Open? <==> c.gateExpires.None?)
    && c.lastGeneration <= MAX_SAFE_INTEGER
  }

  /** Outside a snapshot nothing is captured, in progress, outstanding or being checked. */
  ghost predicate IdleInv(c: State) {
    !c.phase.Snapshot? ==>
      c.captured == map[] && c.progress == map[] && c.intents == map[] && c.check.None?
  }

  /** During a snapshot the capture is frozen and belongs to the newest generation. */
  ghost predicate CaptureInv(c: State) {
    c.phase.Snapshot? ==>
      var g: int := c.lastGeneration;
      && c.activeGeneration == Some(g) && g >= 1
      && c.active == map[] && c.failure.None?
      && c.captured.Keys == {g} && c.captured[g] != {}
      && c.captured[g] !! c.incomplete
      && DayGraph.Closed(c.captured[g], c.dirty, c.links)
  }

  /** At most one Copy is outstanding, and it is the one at the cursor; so is the check. */
  ghost predicate CursorInv(c: State) {
    c.phase.Snapshot? ==>
      var g: int := c.lastGeneration;
      var days := CountCaptured(c, g);
      && c.progress.Keys == {g}
      && c.progress[g].next <= CopyCount(days)
      && (forall k :: k in c.intents ==> KeyAt(g, days, c.progress[g].next) == Some(k))
      && (c.check.Some? ==> c.check.value.generation == g && c.check.value.copyIndex == c.progress[g].next)
      && (c.progress[g].manifestAt.Some? ==> c.progress[g].next == CopyCount(days))
  }

  ghost predicate DaysInv(c: State) {
    && c.incomplete <= c.dirty
    && |PendingDays(c)| <= MAX_DIRTY_DAYS
  }

  ghost predicate DeliveriesInv(c: State) {
    && |c.active| <= MAX_ACTIVE_DELIVERIES && c.lastSequence >= 1
    && (forall id :: id in c.active ==> 1 < c.active[id].sequence <= c.lastSequence)
    && (forall i, j :: i in c.active && j in c.active && c.active[i].sequence == c.active[j].sequence ==> i == j)
  }

  ghost predicate LinksInv(c: State) {
    && (forall l :: l in c.links ==> l.a < l.b)
    && |LinkNodes(c.links)| <= MAX_LINK_NODES
  }

  ghost predicate ChecksInv(c: State) {
    c.check.Some? ==>
      c.check.value.statusChecks <= STATUS_CHECK_BUDGET && c.check.value.recoveryChecks <= RECOVERY_CHECK_BUDGET
  }

  /** What holds of deliveries, dirty days and links. */
  ghost predicate TablesInv(c: State) {
    DaysInv(c) && DeliveriesInv(c) && LinksInv(c)
  }

  /** What holds of the gate and of the generation behind it. */
  ghost predicate GenerationInv(c: State) {
    GateInv(c) && IdleInv(c) && CaptureInv(c) && CursorInv(c) && ChecksInv(c)
  }

  ghost predicate Inv(c: State) {
    TablesInv(c) && GenerationInv(c)
  }

  lemma InitialInv()
    ensures Inv(INITIAL)
  {
    assert PendingDays(INITIAL) == {};
  }

  // ---- helpers ----

  lemma CapturedDaysOne(c: State, g: int)
    requires c.captured.Keys == {g}
    ensures CapturedDays(c) == c.captured[g]
  {
    forall d ensures d in CapturedDays(c) <==> d in c.captured[g] {
      if d in c.captured[g] {
        assert g in c.captured;
      }
    }
  }

  lemma TablesFrame(c: State, c1: State)
    requires TablesInv(c)
    requires c1.dirty == c.dirty && c1.incomplete == c.incomplete && c1.links == c.links
    requires c1.active == c.active && c1.lastSequence == c.lastSequence
    ensures TablesInv(c1)
  {
    assert PendingDays(c1) == PendingDays(c);
  }

  /** Outside a snapshot, only the gate rows matter to the generation half. */
  lemma IdleGeneration(c: State, c1: State)
    requires GenerationInv(c) && !c.phase.Snapshot?
    requires c1.phase == c.phase && c1.activeGeneration == c.activeGeneration && c1.gateExpires == c.gateExpires
    requires c1.lastGeneration == c.lastGeneration
    requires c1.captured == c.captured && c1.progress == c.progress && c1.intents == c.intents && c1.check == c.check
    ensures GenerationInv(c1)
  {}

  lemma FewerDays(small: set<Day>, large: set<Day>)
    requires small <= large
    ensures |small| <= |large|
  {
    DayGraph.SubsetCardinality(small, large);
  }

  lemma PruneDays(c: State, clock: Clock)
    ensures
      var p := Prune(c, clock);
      && p.dirty <= c.dirty && p.incomplete <= c.incomplete && p.links <= c.links
      && c.dirty * CapturedDays(c) <= p.dirty
      && DeliveryDays(p) == DeliveryDays(c) && PendingDays(p) <= PendingDays(c)
      && LinkNodes(p.links) <= LinkNodes(c.links)
  {}

  lemma PruneKeepsTables(c: State, clock: Clock)
    requires TablesInv(c)
    ensures TablesInv(Prune(c, clock))
  {
    var p := Prune(c, clock);
    PruneDays(c, clock);
    FewerDays(PendingDays(p), PendingDays(c));
    FewerDays(LinkNodes(p.links), LinkNodes(c.links));
  }

  lemma PruneKeepsGeneration(c: State, clock: Clock)
    requires GenerationInv(c)
    ensures GenerationInv(Prune(c, clock))
  {
    var p := Prune(c, clock);
    if c.phase.Snapshot? {
      var g: int := c.lastGeneration;
      CapturedDaysOne(c, g);
      PruneDays(c, clock);
      forall a, b | a in c.captured[g] && b in p.dirty && DayGraph.Adjacent(p.links, a, b) ensures b in c.captured[g] {
        assert DayGraph.Adjacent(c.links, a, b);
      }
    }
  }

  lemma PruneKeeps(c: State, clock: Clock)
    requires Inv(c)
    ensures Inv(Prune(c, clock))
  {
    PruneKeepsTables(c, clock);
    PruneKeepsGeneration(c, clock);
  }

  lemma RecoverShape(c: State, now: int)
    requires GateInv(c)
    ensures RecoverGate(c, now).Ok?
    ensures
      var c1 := RecoverGate(c, now).value;
      c1 == c || (c.phase.Draining? && c1 == OpenGate(c.(captured := map[])))
  {}

  lemma ReopenKeeps(c: State)
    requires GenerationInv(c) && !c.phase.Snapshot?
    ensures GenerationInv(OpenGate(c.(captured := map[])))
  {}

  lemma RecoverKeeps(c: State, now: int)
    requires Inv(c)
    ensures RecoverGate(c, now).Ok? && Inv(RecoverGate(c, now).value)
    ensures c.phase.Snapshot? ==> RecoverGate(c, now) == Ok(c)
  {
    RecoverShape(c, now);
    var c1 := RecoverGate(c, now).value;
    if c1 != c {
      TablesFrame(c, c1);
      ReopenKeeps(c);
    }
  }

  lemma RecoverAndPruneKeeps(c: State, clock: Clock)
    requires Inv(c)
    ensures RecoverAndPrune(c, clock).Ok? && Inv(RecoverAndPrune(c, clock).value)
  {
    RecoverKeeps(c, clock.now);
    PruneKeeps(RecoverGate(c, clock.now).value, clock);
  }

  // ---- deliveries ----

  lemma InsertKeepsDeliveries(c: State, input: ReserveInput)
    requires DeliveriesInv(c) && input.id !in c.active && |c.active| < MAX_ACTIVE_DELIVERIES
    ensures DeliveriesInv(InsertReservation(c, input))
  {}

  lemma ReserveOnShape(c: State, input: ReserveInput, clock: Clock)
    ensures
      var out := ReserveOn(c, input, clock);
      || (out.state == c && !out.reply.Reserved?)
      || (&& out == Outcome(InsertReservation(c, input), Reserved(c.lastSequence + 1))
          && input.id !in c.active && c.phase.Open? && |c.active| < MAX_ACTIVE_DELIVERIES
          && c.erasureStartedAt.None? && WindowFault(input, clock).None?
          && |PendingDays(out.state)| <= MAX_DIRTY_DAYS)
  {}

  lemma ReserveKeeps(c: State, input: ReserveInput, clock: Clock)
    requires Inv(c)
    ensures Inv(Reserve(c, input, clock).state)
  {
    RecoverAndPruneKeeps(c, clock);
    var c1 := RecoverAndPrune(c, clock).value;
    ReserveOnShape(c1, input, clock);
    var c2 := ReserveOn(c1, input, clock).state;
    if c2 != c1 {
      InsertKeepsDeliveries(c1, input);
      IdleGeneration(c1, c2);
    }
  }

  lemma ReplaceShape(c: State, id: string, payload: string, days: seq<Day>, clock: Clock)
    ensures
      var out := ReplaceDirtyDays(c, id, payload, days, clock);
      || (out.state == c && out.reply.Refused?)
      || (&& id in c.active && HoldsPermit(c, id)
          && out.state == c.(active := c.active[id := c.active[id].(days := DaySetOf(days))])
          && out.reply == DaysPlanned(DaySetOf(days))
          && (forall d :: d in DaySetOf(days) ==> clock.Retains(d))
          && |PendingDays(out.state)| <= MAX_DIRTY_DAYS)
  {}

  lemma ReplaceKeepsDeliveries(c: State, id: string, days: set<Day>)
    requires DeliveriesInv(c) && id in c.active
    ensures DeliveriesInv(c.(active := c.active[id := c.active[id].(days := days)]))
  {
    var active := c.active[id := c.active[id].(days := days)];
    assert active.Keys == c.active.Keys;
    SameCardinality(active, c.active);
  }

  lemma ReplaceKeeps(c: State, id: string, payload: string, days: seq<Day>, clock: Clock)
    requires Inv(c)
    ensures Inv(ReplaceDirtyDays(c, id, payload, days, clock).state)
  {
    ReplaceShape(c, id, payload, days, clock);
    var c1 := ReplaceDirtyDays(c, id, payload, days, clock).state;
    if c1 != c {
      ReplaceKeepsDeliveries(c, id, DaySetOf(days));
      IdleGeneration(c, c1);
    }
  }

  lemma SameCardinality<V, W>(m: map<string, V>, n: map<string, W>)
    requires m.Keys == n.Keys
    ensures |m| == |n|
  {
    assert |m| == |m.Keys| && |n| == |n.Keys|;
  }

  lemma LinksOrdered(moves: seq<Move>, clock: Clock)
    requires MovesFault(moves, clock).None?
    ensures forall l :: l in LinksOf(moves) ==> l.a < l.b && clock.Retains(l.a) && clock.Retains(l.b)
  {}

  lemma LinkShape(c: State, id: string, payload: string, moves: seq<Move>, clock: Clock)
    ensures
      var out := LinkDirtyDays(c, id, payload, moves, clock);
      || (out.state == c && out.reply.Refused?)
      || (&& out.state == c.(links := c.links + LinksOf(moves)) && out.reply == LinksAdded(|LinksOf(moves)|)
          && MovesFault(moves, clock).None? && id in c.active && HoldsPermit(c, id)
          && LinkNodes(LinksOf(moves)) <= c.active[id].days
          && |LinkNodes(out.state.links)| <= MAX_LINK_NODES)
  {}

  /** Planning replaces the delivery's days, and then adds its links or is refused. */
  lemma PlanWriteShape(c: State, id: string, payload: string, days: seq<Day>, moves: seq<Move>, clock: Clock)
    ensures
      var out := PlanWrite(c, id, payload, days, moves, clock);
      || (out.state == c && out.reply.Refused?)
      || (&& id in c.active && HoldsPermit(c, id)
          && |PendingDays(out.state)| <= MAX_DIRTY_DAYS
          && (forall d :: d in DaySetOf(days) ==> clock.Retains(d))
          && var c1 := c.(active := c.active[id := c.active[id].(days := DaySetOf(days))]);
          && (|| (out.state == c1 && (out.reply.Refused? || (moves == [] && out.reply == DaysPlanned(DaySetOf(days)))))
              || (&& out.state == c1.(links := c.links + LinksOf(moves))
                  && out.reply == DaysPlanned(DaySetOf(days))
                  && MovesFault(moves, clock).None? && LinkNodes(LinksOf(moves)) <= DaySetOf(days))))
  {
    ReplaceShape(c, id, payload, days, clock);
    LinkShape(ReplaceDirtyDays(c, id, payload, days, clock).state, id, payload, moves, clock);
    PendingIgnoresLinks(ReplaceDirtyDays(c, id, payload, days, clock).state, LinksOf(moves));
  }

  lemma PendingIgnoresLinks(c: State, added: set<Link>)
    ensures PendingDays(c.(links := c.links + added)) == PendingDays(c)
  {}

  lemma AddLinksKeeps(c: State, added: set<Link>)
    requires TablesInv(c) && (forall l :: l in added ==> l.a < l.b)
    requires |LinkNodes(c.links + added)| <= MAX_LINK_NODES
    ensures TablesInv(c.(links := c.links + added))
  {
    assert PendingDays(c.(links := c.links + added)) == PendingDays(c);
  }

  lemma LinkKeeps(c: State, id: string, payload: string, moves: seq<Move>, clock: Clock)
    requires Inv(c)
    ensures Inv(LinkDirtyDays(c, id, payload, moves, clock).state)
  {
    LinkShape(c, id, payload, moves, clock);
    var c1 := LinkDirtyDays(c, id, payload, moves, clock).state;
    if c1 != c {
      LinksOrdered(moves, clock);
      AddLinksKeeps(c, LinksOf(moves));
      IdleGeneration(c, c1);
    }
  }

  lemma PlanWriteKeeps(c: State, id: string, payload: string, days: seq<Day>, moves: seq<Move>, clock: Clock)
    requires Inv(c)
    ensures Inv(PlanWrite(c, id, payload, days, moves, clock).state)
  {
    ReplaceKeeps(c, id, payload, days, clock);
    LinkKeeps(ReplaceDirtyDays(c, id, payload, days, clock).state, id, payload, moves, clock);
  }

  /** Leaving moves a delivery's days from held to dirty: the pending days do not change. */
  lemma LeavingConservesPendingDays(c: State, id: string, incomplete: set<Day>)
    requires id in c.active
    ensures
      var left := c.(dirty := c.dirty + c.active[id].days, incomplete := incomplete, active := c.active - {id});
      PendingDays(left) == PendingDays(c)
  {
    var left := c.(dirty := c.dirty + c.active[id].days, incomplete := incomplete, active := c.active - {id});
    forall d ensures d in PendingDays(left) <==> d in PendingDays(c) {
      if d in DeliveryDays(c) {
        var other :| other in c.active && d in c.active[other].days;
        assert other == id || other in left.active;
      }
    }
  }

  lemma LeaveKeeps(c: State, id: string, incomplete: set<Day>, clock: Clock)
    requires Inv(c) && id in c.active
    requires c.incomplete <= incomplete <= c.incomplete + c.active[id].days
    ensures Inv(Prune(c.(dirty := c.dirty + c.active[id].days, incomplete := incomplete, active := c.active - {id}), clock))
  {
    var left := c.(dirty := c.dirty + c.active[id].days, incomplete := incomplete, active := c.active - {id});
    LeavingConservesPendingDays(c, id, incomplete);
    assert left.active.Keys <= c.active.Keys;
    KeysShrink(left.active, c.active);
    assert Inv(left);
    PruneKeeps(left, clock);
  }

  lemma KeysShrink<V>(m: map<string, V>, n: map<string, V>)
    requires m.Keys <= n.Keys
    ensures |m| <= |n|
  {
    DayGraph.SubsetCardinality(m.Keys, n.Keys);
    assert |m| == |m.Keys| && |n| == |n.Keys|;
  }

  lemma CompleteKeeps(c: State, id: string, payload: string, clock: Clock)
    requires Inv(c)
    ensures Inv(Complete(c, id, payload, clock).state)
  {
    if RequireReservation(c, id, payload).Ok? {
      LeaveKeeps(c, id, c.incomplete, clock);
    }
  }

  lemma ExpireKeeps(c: State, id: string, payload: string, clock: Clock)
    requires Inv(c)
    ensures Inv(Expire(c, id, payload, clock).state)
  {
    if RequireReservation(c, id, payload).Ok? {
      LeaveKeeps(c, id, c.incomplete + c.active[id].days, clock);
    }
  }

  lemma ResolveShape(c: State, days: seq<Day>)
    ensures
      var c1 := ResolveIncompleteDays(c, days).state;
      c1 == c || c1 == c.(incomplete := c.incomplete - DaySetOf(days))
  {}

  lemma FewerIncompleteKeeps(c: State, incomplete: set<Day>)
    requires Inv(c) && incomplete <= c.incomplete
    ensures Inv(c.(incomplete := incomplete))
  {
    var c1 := c.(incomplete := incomplete);
    assert PendingDays(c1) == PendingDays(c);
    if c.phase.Snapshot? {
      assert c1.captured == c.captured && c1.dirty == c.dirty && c1.links == c.links;
    }
  }

  lemma ResolveKeeps(c: State, days: seq<Day>)
    requires Inv(c)
    ensures Inv(ResolveIncompleteDays(c, days).state)
  {
    ResolveShape(c, days);
    if ResolveIncompleteDays(c, days).state != c {
      FewerIncompleteKeeps(c, c.incomplete - DaySetOf(days));
    }
  }

  // ---- the gate ----

  lemma RequestShape(c: State, clock: Clock)
    requires RecoverAndPrune(c, clock).Ok?
    ensures
      var c1 := RecoverAndPrune(c, clock).value;
      var c2 := RequestSnapshot(c, clock).state;
      || c2 == c || c2 == c1
      || (c1.phase.Open? && c2 == c1.(phase := Draining, gateExpires := Some(clock.now + SNAPSHOT_LEASE_MS)))
  {}

  lemma DrainKeeps(c: State, expires: int)
    requires GenerationInv(c) && c.phase.Open?
    ensures GenerationInv(c.(phase := Draining, gateExpires := Some(expires)))
  {}

  lemma RequestKeeps(c: State, clock: Clock)
    requires Inv(c)
    ensures Inv(RequestSnapshot(c, clock).state)
  {
    RecoverAndPruneKeeps(c, clock);
    RequestShape(c, clock);
    var c1 := RecoverAndPrune(c, clock).value;
    var c2 := RequestSnapshot(c, clock).state;
    if c2 != c && c2 != c1 {
      TablesFrame(c1, c2);
      DrainKeeps(c1, clock.now + SNAPSHOT_LEASE_MS);
    }
  }

  /** The state in which a set of days has just been captured as the next generation. */
  function Capture(c: State, days: set<Day>, claim: string, expires: int): State {
    var generation := c.lastGeneration + 1;
    c.(captured := c.captured[generation := days],
       lastGeneration := generation, phase := Snapshot, activeGeneration := Some(generation),
       gateExpires := Some(expires),
       progress := c.progress[generation := Progress(0, claim, None)])
  }

  lemma CaptureKeeps(c: State, days: set<Day>, claim: string, expires: int)
    requires GenerationInv(c) && !c.phase.Snapshot? && c.active == map[] && c.failure.None?
    requires days != {} && DayGraph.Closed(days, c.dirty, c.links) && days !! c.incomplete
    requires c.lastGeneration < MAX_SAFE_INTEGER
    ensures GenerationInv(Capture(c, days, claim, expires))
  {
    var c1 := Capture(c, days, claim, expires);
    var generation: int := c.lastGeneration + 1;
    assert c1.captured.Keys == {generation} && c1.progress.Keys == {generation};
  }

  lemma OpenGateKeeps(c: State)
    requires GenerationInv(c) && !c.phase.Snapshot?
    ensures GenerationInv(OpenGate(c))
  {}

  lemma BeginShape(c: State, claim: string, clock: Clock)
    requires RecoverAndPrune(c, clock).Ok?
    ensures
      var c1 := RecoverAndPrune(c, clock).value;
      var out := BeginSnapshot(c, claim, clock);
      var days := DayGraph.Select(c1.dirty, c1.incomplete, c1.links);
      || (out.state == c && !out.reply.Begun?)
      || (out.state == c1 && !out.reply.Begun?)
      || (c1.failure.None? && !c1.phase.Snapshot? && c1.active == map[] && days == {}
          && out == Outcome(OpenGate(c1), Refused(NoCompleteDirtyDays)))
      || (c1.failure.None? && !c1.phase.Snapshot? && c1.active == map[] && days != {}
          && c1.erasureStartedAt.None?
          && c1.lastGeneration < MAX_SAFE_INTEGER
          && out == Outcome(Capture(c1, days, claim, clock.now + SNAPSHOT_LEASE_MS), Begun(c1.lastGeneration + 1, days)))
  {}

  lemma BeginKeeps(c: State, claim: string, clock: Clock)
    requires Inv(c)
    ensures Inv(BeginSnapshot(c, claim, clock).state)
  {
    RecoverAndPruneKeeps(c, clock);
    BeginShape(c, claim, clock);
    var c1 := RecoverAndPrune(c, clock).value;
    var c2 := BeginSnapshot(c, claim, clock).state;
    if c2 != c && c2 != c1 {
      var days := DayGraph.Select(c1.dirty, c1.incomplete, c1.links);
      TablesFrame(c1, c2);
      if days == {} {
        OpenGateKeeps(c1);
      } else {
        DayGraph.SelectIsClosed(c1.dirty, c1.incomplete, c1.links);
        CaptureKeeps(c1, days, claim, clock.now + SNAPSHOT_LEASE_MS);
      }
    }
  }

  lemma LeaseKeeps(c: State, claim: string, expires: int)
    requires Inv(c) && c.phase.Snapshot?
    ensures
      var g: int := c.lastGeneration;
      && Inv(c.(gateExpires := Some(expires)))
      && Inv(c.(progress := c.progress[g := c.progress[g].(claim := claim)], gateExpires := Some(expires)))
  {
    var g: int := c.lastGeneration;
    var c1 := c.(progress := c.progress[g := c.progress[g].(claim := claim)], gateExpires := Some(expires));
    assert PendingDays(c1) == PendingDays(c) && c1.progress.Keys == {g};
    assert PendingDays(c.(gateExpires := Some(expires))) == PendingDays(c);
  }

  lemma ClaimShape(c: State, claim: string, clock: Clock)
    ensures
      var c1 := ClaimSnapshot(c, claim, clock).state;
      || c1 == c
      || (&& c.phase.Snapshot? && c.activeGeneration.Some? && c.activeGeneration.value in c.progress
          && c1 == c.(
               progress := c.progress[c.activeGeneration.value := c.progress[c.activeGeneration.value].(claim := claim)],
               gateExpires := Some(clock.now + SNAPSHOT_LEASE_MS)))
  {}

  lemma ClaimKeeps(c: State, claim: string, clock: Clock)
    requires Inv(c)
    ensures Inv(ClaimSnapshot(c, claim, clock).state)
  {
    ClaimShape(c, claim, clock);
    if ClaimSnapshot(c, claim, clock).state != c {
      LeaseKeeps(c, claim, clock.now + SNAPSHOT_LEASE_MS);
    }
  }

  lemma SetLeaseShape(c: State, generation: int, claim: string, clock: Clock, expires: int)
    ensures
      var c1 := SetLease(c, generation, claim, clock, expires).state;
      c1 == c || (c.phase.Snapshot? && c1 == c.(gateExpires := Some(expires)))
  {}

  lemma SetLeaseKeeps(c: State, generation: int, claim: string, clock: Clock, expires: int)
    requires Inv(c)
    ensures Inv(SetLease(c, generation, claim, clock, expires).state)
  {
    SetLeaseShape(c, generation, claim, clock, expires);
    if SetLease(c, generation, claim, clock, expires).state != c {
      LeaseKeeps(c, claim, expires);
    }
  }

  /** Changing the progress row without moving its cursor. */
  lemma ProgressKeeps(c: State, row: Progress)
    requires GenerationInv(c) && c.phase.Snapshot?
    requires row.next == c.progress[c.lastGeneration].next
    requires row.manifestAt.Some? ==> row.next == CopyCount(CountCaptured(c, c.lastGeneration))
    ensures GenerationInv(c.(progress := c.progress[c.lastGeneration as int := row]))
  {
    assert c.progress[c.lastGeneration as int := row].Keys == c.progress.Keys;
  }

  lemma ManifestShape(c: State, generation: int, claim: string, clock: Clock)
    requires RecoverGate(c, clock.now).Ok? && (c.phase.Snapshot? ==> RecoverGate(c, clock.now) == Ok(c))
    ensures
      var out := PrepareManifest(c, generation, claim, clock);
      || (out.state == c && !out.reply.Claimed?)
      || (out.state == RecoverGate(c, clock.now).value && !out.reply.Claimed?)
      || (&& out.reply.Claimed? && AssertClaim(c, generation, claim, clock).Ok?
          && c.erasureStartedAt.None?
          && generation in c.progress
          && AssertClaim(c, generation, claim, clock).value.next == AssertClaim(c, generation, claim, clock).value.total
          && out.state == c.(progress := c.progress[generation := c.progress[generation].(manifestAt := out.reply.view.manifestAt)]))
  {
    var out := PrepareManifest(c, generation, claim, clock);
    var c1 := RecoverGate(c, clock.now).value;
    if out.reply.Claimed? {
      ClaimHolder(c1, generation, claim, clock);
      assert c1 == c;
    }
  }

  lemma ManifestKeeps(c: State, generation: int, claim: string, clock: Clock)
    requires Inv(c)
    ensures Inv(PrepareManifest(c, generation, claim, clock).state)
  {
    RecoverKeeps(c, clock.now);
    ManifestShape(c, generation, claim, clock);
    var out := PrepareManifest(c, generation, claim, clock);
    if out.reply.Claimed? {
      ClaimHolder(c, generation, claim, clock);
      TablesFrame(c, out.state);
      ProgressKeeps(c, out.state.progress[generation]);
    }
  }

  // ---- ending a generation ----

  /** Dropping the capture, with or without publishing, leaves an idle coordinator. */
  lemma RemoveCaptureKeeps(c: State, dirty: set<Day>, links: set<Link>, clock: Clock)
    requires Inv(c) && c.phase.Snapshot?
    requires dirty <= c.dirty && links <= c.links && c.incomplete <= dirty
    ensures
      var g: int := c.lastGeneration;
      Inv(RemoveCapture(c.(dirty := dirty, links := links, intents := map[], check := None), g, clock))
  {
    var g: int := c.lastGeneration;
    var base := c.(dirty := dirty, links := links, intents := map[], check := None);
    var reopened := OpenGate(base.(captured := base.captured - {g}, progress := base.progress - {g}));
    assert reopened.captured == map[] && reopened.progress == map[];
    assert PendingDays(reopened) <= PendingDays(c) && LinkNodes(links) <= LinkNodes(c.links);
    FewerDays(PendingDays(reopened), PendingDays(c));
    FewerDays(LinkNodes(links), LinkNodes(c.links));
    assert Inv(reopened);
    PruneKeeps(reopened, clock);
  }

  /** The check and intent rows play no part in dropping a capture. */
  lemma RemoveCaptureFrame(c: State, g: int, clock: Clock, intents: map<CopyKey, Intent>)
    ensures
      RemoveCapture(c.(intents := intents), g, clock).(check := None)
        == RemoveCapture(c.(intents := intents, check := None), g, clock)
  {}

  lemma FinishKeeps(c: State, generation: int, claim: string, clock: Clock)
    requires Inv(c)
    ensures Inv(FinishSnapshot(c, generation, claim, clock).state)
  {
    var out := FinishSnapshot(c, generation, claim, clock);
    if out.reply.Finished? {
      var days := c.captured[generation];
      var links := set l | l in c.links && !(l.a in days && l.b in days);
      RemoveCaptureKeeps(c, c.dirty - days, links, clock);
      var base := c.(dirty := c.dirty - days, links := links);
      assert base.(intents := map[]) == base;
      RemoveCaptureFrame(base, generation, clock, map[]);
    }
  }

  lemma FailureKeeps(c: State, failure: Failure)
    requires Inv(c) && !c.phase.Snapshot?
    ensures Inv(c.(failure := Some(failure)))
  {
    assert PendingDays(c.(failure := Some(failure))) == PendingDays(c);
  }

  /** Ending a generation after its intent row, if any, is gone. */
  lemma FailCaptureKeeps(c: State, intents: map<CopyKey, Intent>, generation: int, clock: Clock)
    requires Inv(c) && intents == map[]
    ensures
      var failed := FailCapture(c.(intents := intents), generation, clock);
      && (failed.reply.Refused? ==> !c.phase.Snapshot? || c.activeGeneration != Some(generation))
      && (!failed.reply.Refused? ==> Inv(failed.state.(check := None)) && failed.state.phase.Open? && failed.state.failure.None?)
  {
    var base := c.(intents := intents);
    if c.phase.Snapshot? && c.activeGeneration == Some(generation) {
      RemoveCaptureKeeps(c, c.dirty, c.links, clock);
      RemoveCaptureFrame(c, generation, clock, intents);
    }
  }

  lemma FailSnapshotKeeps(c: State, generation: int, claim: string, reason: Option<string>, clock: Clock)
    requires Inv(c)
    ensures Inv(FailSnapshot(c, generation, claim, reason, clock).state)
  {
    if AssertClaim(c, generation, claim, clock).Ok? && c.intents == map[] {
      FailCaptureKeeps(c, map[], generation, clock);
      assert c.(intents := map[]) == c;
      if reason.Some? {
        FailureKeeps(FailCapture(c, generation, clock).state.(check := None), Failure(generation, reason.value, clock.now));
      }
    }
  }

  /** The only intent row is the one at the cursor, so removing it empties the table. */
  lemma OnlyIntent(c: State, key: CopyKey)
    requires Inv(c) && key in c.intents
    ensures c.phase.Snapshot? && c.intents.Keys == {key} && c.intents - {key} == map[]
  {
    var g: int := c.lastGeneration;
    forall k | k in c.intents ensures k == key {
      assert KeyAt(g, CountCaptured(c, g), c.progress[g].next) == Some(k);
    }
    assert (c.intents - {key}).Keys == {};
  }

  lemma FailWithKeeps(c: State, key: CopyKey, generation: int, reason: string, clock: Clock)
    requires Inv(c) && key in c.intents
    ensures Inv(FailWith(c.(intents := c.intents - {key}), c, generation, reason, clock).state)
    ensures FailWith(c.(intents := c.intents - {key}), c, generation, reason, clock).reply != Refused(FailureCollision)
  {
    OnlyIntent(c, key);
    FailCaptureKeeps(c, c.intents - {key}, generation, clock);
    var failed := FailCapture(c.(intents := c.intents - {key}), generation, clock);
    if !failed.reply.Refused? {
      FailureKeeps(failed.state.(check := None), Failure(generation, reason, clock.now));
    }
  }

  // ---- intents and checks ----

  lemma RecordIntentShape(c: State, key: CopyKey, claim: string, copyIndex: int, startedAt: int, clock: Clock)
    ensures
      var out := RecordIntent(c, key, claim, copyIndex, startedAt, clock);
      || (out.state == c && out.reply.Refused?)
      || (&& copyIndex >= 0 && out.reply == Done
          && c.erasureStartedAt.None? && CursorFault(c, key, claim, copyIndex, clock).None?
          && key !in c.intents && IsCopyAttempt(key.generation, key.copyAttempt)
          && out.state == c.(
               intents := c.intents[key := Intent(startedAt, None)],
               check := Some(Check(key.generation, copyIndex, clock.now + FIRST_CHECK_MS, 0, 0, false, None))))
  {}

  /** A key that passes the cursor check is the expected key of the active generation's cursor. */
  lemma AtCursor(c: State, key: CopyKey, claim: string, copyIndex: int, clock: Clock)
    requires CursorFault(c, key, claim, copyIndex, clock).None?
    ensures c.phase.Snapshot? && c.activeGeneration == Some(key.generation)
    ensures key.generation in c.progress && c.progress[key.generation].next == copyIndex
    ensures KeyAt(key.generation, CountCaptured(c, key.generation), copyIndex) == Some(key)
    ensures c.progress[key.generation].claim == claim
    ensures c.gateExpires.Some? && clock.now < c.gateExpires.value
  {}

  lemma NewIntentKeeps(c: State, key: CopyKey, copyIndex: nat, intent: Intent, check: Check)
    requires GenerationInv(c) && c.phase.Snapshot? && key.generation == c.lastGeneration as int
    requires c.progress[c.lastGeneration].next == copyIndex
    requires KeyAt(key.generation, CountCaptured(c, key.generation), copyIndex) == Some(key)
    requires check.generation == c.lastGeneration as int && check.copyIndex == copyIndex
    requires check.statusChecks == 0 && check.recoveryChecks == 0
    ensures GenerationInv(c.(intents := c.intents[key := intent], check := Some(check)))
  {}

  lemma RecordIntentKeeps(c: State, key: CopyKey, claim: string, copyIndex: int, startedAt: int, clock: Clock)
    requires Inv(c)
    ensures Inv(RecordIntent(c, key, claim, copyIndex, startedAt, clock).state)
  {
    RecordIntentShape(c, key, claim, copyIndex, startedAt, clock);
    var c1 := RecordIntent(c, key, claim, copyIndex, startedAt, clock).state;
    if c1 != c {
      AtCursor(c, key, claim, copyIndex, clock);
      TablesFrame(c, c1);
      NewIntentKeeps(c, key, copyIndex, c1.intents[key], c1.check.value);
    }
  }

  lemma AttachToShape(c: State, key: CopyKey, job: string)
    ensures
      var c1 := AttachJobTo(c, key, job).state;
      || c1 == c
      || (key in c.intents && c1 == c.(intents := c.intents[key := c.intents[key].(job := Some(job))]))
  {}

  lemma ReplaceIntentKeeps(c: State, key: CopyKey, intent: Intent)
    requires GenerationInv(c) && key in c.intents
    ensures GenerationInv(c.(intents := c.intents[key := intent]))
  {
    assert c.intents[key := intent].Keys == c.intents.Keys;
  }

  lemma AttachToKeeps(c: State, key: CopyKey, job: string)
    requires Inv(c)
    ensures Inv(AttachJobTo(c, key, job).state)
  {
    AttachToShape(c, key, job);
    var c1 := AttachJobTo(c, key, job).state;
    if c1 != c {
      TablesFrame(c, c1);
      ReplaceIntentKeeps(c, key, c1.intents[key]);
    }
  }

  lemma CheckRowKeepsGeneration(c: State, check: Check)
    requires GenerationInv(c) && c.phase.Snapshot?
    requires check.generation == c.lastGeneration as int && check.copyIndex == c.progress[c.lastGeneration].next
    requires check.statusChecks <= STATUS_CHECK_BUDGET && check.recoveryChecks <= RECOVERY_CHECK_BUDGET
    ensures GenerationInv(c.(check := Some(check)))
  {}

  lemma CheckRowKeeps(c: State, check: Check)
    requires Inv(c) && c.phase.Snapshot?
    requires check.generation == c.lastGeneration as int && check.copyIndex == c.progress[c.lastGeneration].next
    requires check.statusChecks <= STATUS_CHECK_BUDGET && check.recoveryChecks <= RECOVERY_CHECK_BUDGET
    ensures Inv(c.(check := Some(check)))
  {
    TablesFrame(c, c.(check := Some(check)));
    CheckRowKeepsGeneration(c, check);
  }

  lemma AttachShape(c: State, key: CopyKey, claim: string, copyIndex: int, job: string, clock: Clock)
    ensures
      var c1 := AttachJobTo(c, key, job).state;
      var out := AttachJob(c, key, claim, copyIndex, job, clock).state;
      || out == c || out == c1
      || (c1.check.Some? && out == c1.(check := Some(c1.check.value.(recoveryRequired := false))))
  {}

  lemma AttachKeeps(c: State, key: CopyKey, claim: string, copyIndex: int, job: string, clock: Clock)
    requires Inv(c)
    ensures Inv(AttachJob(c, key, claim, copyIndex, job, clock).state)
  {
    AttachToKeeps(c, key, job);
    AttachShape(c, key, claim, copyIndex, job, clock);
    var c1 := AttachJobTo(c, key, job).state;
    if c1.check.Some? {
      CheckRowKeeps(c1, c1.check.value.(recoveryRequired := false));
    }
  }

  lemma AdvanceKeeps(c: State, key: CopyKey, row: Progress)
    requires GenerationInv(c) && key in c.intents
    requires c.phase.Snapshot? && c.intents - {key} == map[]
    requires row.next == c.progress[c.lastGeneration].next + 1 && row.manifestAt == c.progress[c.lastGeneration].manifestAt
    ensures GenerationInv(c.(intents := c.intents - {key}, progress := c.progress[c.lastGeneration as int := row], check := None))
  {
    var c1 := c.(intents := c.intents - {key}, progress := c.progress[c.lastGeneration as int := row], check := None);
    assert KeyAt(c.lastGeneration, CountCaptured(c, c.lastGeneration), c.progress[c.lastGeneration].next) == Some(key);
    assert c1.progress.Keys == c.progress.Keys;
  }

  lemma SettleShape(
    c: State, key: CopyKey, claim: string, copyIndex: int, job: string, succeeded: bool, clock: Clock)
    ensures
      var out := SettleIntent(c, key, claim, copyIndex, job, succeeded, clock);
      var failing := FailWith(c.(intents := c.intents - {key}), c, key.generation, "Snapshot Copy job " + job + " failed", clock);
      || (out.state == c && out.reply.Refused?)
      || (&& key in c.intents && succeeded && CursorFault(c, key, claim, copyIndex, clock).None?
          && key.generation in c.progress && c.progress[key.generation].next == copyIndex
          && out.reply == Done
          && out.state == c.(
               intents := c.intents - {key}, check := None,
               progress := c.progress[key.generation := c.progress[key.generation].(next := copyIndex + 1)]))
      || (key in c.intents && !succeeded && CursorFault(c, key, claim, copyIndex, clock).None? && out == failing)
  {}

  lemma SettleKeeps(
    c: State, key: CopyKey, claim: string, copyIndex: int, job: string, succeeded: bool, clock: Clock)
    requires Inv(c)
    ensures Inv(SettleIntent(c, key, claim, copyIndex, job, succeeded, clock).state)
  {
    SettleShape(c, key, claim, copyIndex, job, succeeded, clock);
    var c1 := SettleIntent(c, key, claim, copyIndex, job, succeeded, clock).state;
    if c1 != c {
      OnlyIntent(c, key);
      if succeeded {
        AdvanceKeeps(c, key, c1.progress[key.generation]);
        TablesFrame(c, c1);
      } else {
        FailWithKeeps(c, key, key.generation, "Snapshot Copy job " + job + " failed", clock);
      }
    }
  }

  lemma RejectShape(c: State, key: CopyKey, claim: string, copyIndex: int, reason: string, clock: Clock)
    ensures
      var out := RejectIntent(c, key, claim, copyIndex, reason, clock);
      || (out.state == c && out.reply.Refused?)
      || (key in c.intents && CursorFault(c, key, claim, copyIndex, clock).None?
          && out == FailWith(c.(intents := c.intents - {key}), c, key.generation, reason, clock))
  {}

  lemma RejectKeeps(c: State, key: CopyKey, claim: string, copyIndex: int, reason: string, clock: Clock)
    requires Inv(c)
    ensures Inv(RejectIntent(c, key, claim, copyIndex, reason, clock).state)
  {
    RejectShape(c, key, claim, copyIndex, reason, clock);
    if RejectIntent(c, key, claim, copyIndex, reason, clock).state != c {
      FailWithKeeps(c, key, key.generation, reason, clock);
    }
  }

  lemma ClaimHolder(c: State, generation: int, claim: string, clock: Clock)
    requires AssertClaim(c, generation, claim, clock).Ok?
    ensures c.phase.Snapshot? && c.activeGeneration == Some(generation) && generation in c.progress
    ensures c.progress[generation].claim == claim && c.gateExpires.Some? && clock.now < c.gateExpires.value
    ensures
      var view := AssertClaim(c, generation, claim, clock).value;
      && view.next == c.progress[generation].next && view.total == CopyCount(CountCaptured(c, generation))
  {}

  lemma PrepareCheckShape(
    c: State, generation: int, claim: string, copyIndex: nat, recovery: bool, clock: Clock)
    requires c.check.Some? ==>
      c.check.value.statusChecks <= STATUS_CHECK_BUDGET && c.check.value.recoveryChecks <= RECOVERY_CHECK_BUDGET
    ensures
      var out := PrepareCheck(c, generation, claim, copyIndex, recovery, clock);
      || (out.state == c && out.reply.Refused? && out.reply.fault != CheckMismatch)
      || (out == Refuse(c, CheckMismatch) && c.check.Some?
          && AssertClaim(c, generation, claim, clock).Ok?
          && AssertClaim(c, generation, claim, clock).value.next == copyIndex
          && (c.check.value.generation != generation || c.check.value.copyIndex != copyIndex))
      || (&& out.reply.CheckResult? && out.state == c.(check := Some(out.reply.check))
          && AssertClaim(c, generation, claim, clock).Ok?
          && AssertClaim(c, generation, claim, clock).value.next == copyIndex
          && out.reply.check.generation == generation && out.reply.check.copyIndex == copyIndex
          && out.reply.check.statusChecks <= STATUS_CHECK_BUDGET
          && out.reply.check.recoveryChecks <= RECOVERY_CHECK_BUDGET)
  {
    if AssertClaim(c, generation, claim, clock).Err? {
      ClaimErrors(c, generation, claim, clock);
    }
  }

  lemma ClaimErrors(c: State, generation: int, claim: string, clock: Clock)
    requires AssertClaim(c, generation, claim, clock).Err?
    ensures AssertClaim(c, generation, claim, clock).error in
      {ClaimNotActive, ProgressMissing, ProgressMismatch, CursorInvalid, ClaimOwnerMismatch}
  {}

  lemma PrepareCheckKeeps(
    c: State, generation: int, claim: string, copyIndex: nat, recovery: bool, clock: Clock)
    requires Inv(c)
    ensures Inv(PrepareCheck(c, generation, claim, copyIndex, recovery, clock).state)
    ensures PrepareCheck(c, generation, claim, copyIndex, recovery, clock).reply != Refused(CheckMismatch)
  {
    PrepareCheckShape(c, generation, claim, copyIndex, recovery, clock);
    var out := PrepareCheck(c, generation, claim, copyIndex, recovery, clock);
    if AssertClaim(c, generation, claim, clock).Ok? {
      ClaimHolder(c, generation, claim, clock);
      if out.reply.CheckResult? {
        CheckRowKeeps(c, out.reply.check);
      }
    }
  }

  lemma RequireRecoveryKeeps(c: State, generation: int, claim: string, clock: Clock)
    requires Inv(c)
    ensures Inv(RequireRecovery(c, generation, claim, clock).state)
  {
    if c.phase.Snapshot? && c.check.Some? {
      CheckRowKeeps(c, c.check.value.(recoveryRequired := true));
    }
  }

  lemma AbandonUnstartedKeeps(
    c: State, generation: int, reason: string, key: CopyKey, startedAt: int, clock: Clock)
    requires Inv(c)
    ensures Inv(AbandonUnstarted(c, generation, reason, key, startedAt, clock).state)
  {
    if key in c.intents {
      FailWithKeeps(c, key, generation, reason, clock);
    }
  }

  lemma ResumeShape(c: State, generation: int, clock: Clock)
    ensures
      var c1 := Resume(c, generation, clock).state;
      || c1 == c
      || (c.failure.Some? && c1 == c.(failure := None))
      || (&& c.activeGeneration.Some? && c.check.Some?
          && c1 == c.(check := Some(c.check.value.(
               statusChecks := 0, recoveryChecks := 0, blocked := None, nextCheckAt := clock.now))))
  {}

  lemma ClearFailureKeeps(c: State)
    requires GenerationInv(c)
    ensures GenerationInv(c.(failure := None))
  {}

  lemma ResumeKeeps(c: State, generation: int, clock: Clock)
    requires Inv(c)
    ensures Inv(Resume(c, generation, clock).state)
  {
    ResumeShape(c, generation, clock);
    TablesFrame(c, Resume(c, generation, clock).state);
    ClearFailureKeeps(c);
    if c.activeGeneration.Some? && c.check.Some? {
      CheckRowKeeps(c, c.check.value.(statusChecks := 0, recoveryChecks := 0, blocked := None, nextCheckAt := clock.now));
    }
  }

  // ---- erasure ----

  lemma SettleErasureKeeps(c: State)
    requires Inv(c) && c.erasureStartedAt.Some?
    ensures Inv(SettleErasureState(c).state)
  {
    var c1 := SettleErasureState(c).state;
    if ErasureReady(c) {
      assert PendingDays(c1) == {} && LinkNodes(c1.links) == {};
    }
  }

  lemma BeginErasureKeeps(c: State, clock: Clock)
    requires Inv(c)
    ensures Inv(BeginErasure(c, clock).state)
  {
    RecoverAndPruneKeeps(c, clock);
    var c1 := RecoverAndPrune(c, clock).value;
    var c2 := if c1.erasureStartedAt.Some? then c1 else c1.(erasureStartedAt := Some(clock.now));
    assert PendingDays(c2) == PendingDays(c1);
    SettleErasureKeeps(c2);
  }

  lemma GetErasureKeeps(c: State, clock: Clock)
    requires Inv(c)
    ensures Inv(GetErasureState(c, clock).state)
  {
    RecoverAndPruneKeeps(c, clock);
    var c1 := RecoverAndPrune(c, clock).value;
    if c1.erasureStartedAt.Some? {
      SettleErasureKeeps(c1);
    }
  }

  lemma SettleErasureIntentKeeps(c: State, key: CopyKey, job: string)
    requires Inv(c)
    ensures Inv(SettleErasureIntent(c, key, job).state)
  {
    var out := SettleErasureIntent(c, key, job);
    if !out.reply.Refused? {
      OnlyIntent(c, key);
      TablesFrame(c, out.state);
    }
  }

  lemma AbandonErasureKeeps(c: State, generation: int, clock: Clock)
    requires Inv(c)
    ensures Inv(AbandonErasureSnapshot(c, generation, clock).state)
  {
    if c.intents == map[] {
      FailCaptureKeeps(c, map[], generation, clock);
      assert c.(intents := map[]) == c;
    }
  }

  // ---- every call ----

  lemma AcquireKeeps(c: State, id: string, payload: string, clock: Clock)
    ensures AcquireWrite(c, id, payload, clock).state == c
  {}

  lemma FinishDeliveryKeeps(c: State, id: string, payload: string, has: bool, planned: set<Day>, clock: Clock)
    requires Inv(c)
    ensures Inv(FinishDelivery(c, id, payload, has, planned, clock).state)
  {
    CompleteKeeps(c, id, payload, clock);
  }

  lemma DeliveryCallKeeps(c: State, call: DeliveryCall, clock: Clock)
    requires Inv(c)
    ensures Inv(DeliveryStep(c, call, clock).state)
  {
    match call
    case CallReserve(input) => ReserveKeeps(c, input, clock);
    case CallAcquireWrite(id, payload) => AcquireKeeps(c, id, payload, clock);
    case CallPlanWrite(id, payload, days, moves) => PlanWriteKeeps(c, id, payload, days, moves, clock);
    case CallLinkDirtyDays(id, payload, moves) => LinkKeeps(c, id, payload, moves, clock);
    case CallFinishDelivery(id, payload, has, planned) => FinishDeliveryKeeps(c, id, payload, has, planned, clock);
    case CallExpire(id, payload) => ExpireKeeps(c, id, payload, clock);
    case CallResolveIncompleteDays(days) => ResolveKeeps(c, days);
  }

  lemma GateCallKeeps(c: State, call: GateCall, clock: Clock)
    requires Inv(c)
    ensures Inv(GateStep(c, call, clock).state)
  {
    match call
    case CallRequestSnapshot => RequestKeeps(c, clock);
    case CallBeginSnapshot(claim) => BeginKeeps(c, claim, clock);
    case CallPrepareManifest(g, claim) => ManifestKeeps(c, g, claim, clock);
    case CallFinishSnapshot(g, claim) => FinishKeeps(c, g, claim, clock);
    case CallFailSnapshot(g, claim, reason) => FailSnapshotKeeps(c, g, claim, reason, clock);
    case CallGetStats => RecoverAndPruneKeeps(c, clock);
  }

  /** Reading the progress and asserting the claim change nothing. */
  lemma ReadOnlyLeaseCalls(c: State, generation: int, claim: string, clock: Clock)
    ensures GetProgress(c, generation, claim, clock).state == c
    ensures AssertSnapshotActive(c, generation, claim, clock).state == c
  {}

  lemma RenewKeeps(c: State, generation: int, claim: string, clock: Clock)
    requires Inv(c)
    ensures Inv(RenewClaim(c, generation, claim, clock).state)
  {
    SetLeaseKeeps(c, generation, claim, clock, clock.now + SNAPSHOT_LEASE_MS);
  }

  lemma ReleaseKeeps(c: State, generation: int, claim: string, clock: Clock)
    requires Inv(c)
    ensures Inv(ReleaseClaim(c, generation, claim, clock).state)
  {
    SetLeaseKeeps(c, generation, claim, clock, clock.now);
  }

  lemma LeaseCallKeeps(c: State, call: LeaseCall, clock: Clock)
    requires Inv(c)
    ensures Inv(LeaseStep(c, call, clock).state)
  {
    match call
    case CallClaimSnapshot(claim) => ClaimKeeps(c, claim, clock);
    case CallGetProgress(g, claim) => ReadOnlyLeaseCalls(c, g, claim, clock);
    case CallRenewClaim(g, claim) => RenewKeeps(c, g, claim, clock);
    case CallReleaseClaim(g, claim) => ReleaseKeeps(c, g, claim, clock);
    case CallAssertActive(g, claim) => ReadOnlyLeaseCalls(c, g, claim, clock);
  }

  lemma CopyCallKeeps(c: State, call: CopyCall, clock: Clock)
    requires Inv(c)
    ensures Inv(CopyStep(c, call, clock).state)
  {
    match call
    case CallRecordIntent(key, claim, i, startedAt) => RecordIntentKeeps(c, key, claim, i, startedAt, clock);
    case CallAttachJob(key, claim, i, job) => AttachKeeps(c, key, claim, i, job, clock);
    case CallSettleIntent(key, claim, i, job, ok) => SettleKeeps(c, key, claim, i, job, ok, clock);
    case CallRejectIntent(key, claim, i, reason) => RejectKeeps(c, key, claim, i, reason, clock);
  }

  lemma RecoveryCallKeeps(c: State, call: RecoveryCall, clock: Clock)
    requires Inv(c)
    ensures Inv(RecoveryStep(c, call, clock).state)
  {
    match call
    case CallPrepareCheck(g, claim, i, recovery) => PrepareCheckKeeps(c, g, claim, i, recovery, clock);
    case CallRequireRecovery(g, claim) => RequireRecoveryKeeps(c, g, claim, clock);
    case CallAbandonUnstarted(g, reason, key, startedAt) => AbandonUnstartedKeeps(c, g, reason, key, startedAt, clock);
    case CallResume(g) => ResumeKeeps(c, g, clock);
  }

  lemma ErasureCallKeeps(c: State, call: ErasureCall, clock: Clock)
    requires Inv(c)
    ensures Inv(ErasureStep(c, call, clock).state)
  {
    match call
    case CallBeginErasure => BeginErasureKeeps(c, clock);
    case CallGetErasureState => GetErasureKeeps(c, clock);
    case CallAttachErasureJob(key, job) => AttachToKeeps(c, key, job);
    case CallSettleErasureIntent(key, job) => SettleErasureIntentKeeps(c, key, job);
    case CallAbandonErasureSnapshot(g) => AbandonErasureKeeps(c, g, clock);
  }

  /** Every public call keeps the invariant, whatever its arguments and whenever it comes. */
  lemma StepKeepsInv(c: State, call: Call, clock: Clock)
    requires Inv(c)
    ensures Inv(Step(c, call, clock).state)
  {
    match call
    case OnDelivery(delivery) => DeliveryCallKeeps(c, delivery, clock);
    case OnGate(gate) => GateCallKeeps(c, gate, clock);
    case OnLease(lease) => LeaseCallKeeps(c, lease, clock);
    case OnCopy(copy) => CopyCallKeeps(c, copy, clock);
    case OnRecovery(recovery) => RecoveryCallKeeps(c, recovery, clock);
    case OnErasure(erasure) => ErasureCallKeeps(c, erasure, clock);
  }
}
