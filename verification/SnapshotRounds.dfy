/**
 * That a snapshot can always be carried through: under a live claim the calls of a round are
 * accepted one after the other, from whatever point the cursor stands at, until the generation is
 * finished.
 */
module SnapshotRounds {
  import opened Contract
  import opened CopyPlan
  import opened CoordinatorModel
  import opened CoordinatorInvariants
  import opened CoordinatorRuns
  import opened PublicationInvariants
  import opened PublicationCalls
  import DayGraph

  /** The claim is live at this time, and nothing forbids to go on. */
  predicate Holding(c: State, g: int, claim: string, clock: Clock) {
    && c.phase.Snapshot? && c.activeGeneration == Some(g) && c.gateExpires.Some? && clock.now < c.gateExpires.value
    && g in c.progress && c.progress[g].claim == claim && c.erasureStartedAt.None? && c.failure.None?
    && c.progress[g].next <= CopyCount(CountCaptured(c, g))
  }

  /** Only the Copy at the cursor can be outstanding. */
  predicate CursorOnly(c: State, g: int) {
    g in c.progress && forall k :: k in c.intents ==> KeyAt(g, CountCaptured(c, g), c.progress[g].next) == Some(k)
  }

  /** The tables after the generation's cursor has moved, with nothing outstanding. */
  function AtPosition(c: State, g: int, next: nat): State
    requires g in c.progress
  {
    c.(progress := c.progress[g := c.progress[g].(next := next)], intents := map[], check := None)
  }

  lemma HoldingView(c: State, g: int, claim: string, clock: Clock)
    requires Holding(c, g, claim, clock)
    ensures AssertClaim(c, g, claim, clock).Ok?
    ensures
      var view := AssertClaim(c, g, claim, clock).value;
      && view.next == c.progress[g].next && view.total == CopyCount(CountCaptured(c, g))
      && view.manifestAt == c.progress[g].manifestAt
  {}

  /** Every key of a generation that can be planned passes the key checks. */
  lemma PlannedKeyIsValid(g: int, days: nat, i: int)
    requires Plannable(g, days) && KeyAt(g, days, i).Some?
    ensures KeyFault(KeyAt(g, days, i).value).None?
  {
    var chunk := i / TARGET_COUNT;
    assert 0 <= chunk < ChunkCount(days);
    assert CopyCount(days) / TARGET_COUNT == ChunkCount(days);
  }

  function Recorded(c: State, g: int, clock: Clock, key: CopyKey): State
    requires g in c.progress
  {
    c.(intents := map[key := Intent(clock.now, None)],
       check := Some(Check(g, c.progress[g].next, clock.now + FIRST_CHECK_MS, 0, 0, false, None)))
  }

  function Attached(c: State, key: CopyKey, job: string): State
    requires key in c.intents
  {
    c.(intents := c.intents[key := c.intents[key].(job := Some(job))],
       check := if c.check.None? then None else Some(c.check.value.(recoveryRequired := false)))
  }

  /** The key is the one at the cursor of the held generation, and it passes the key checks. */
  predicate HoldsKey(c: State, g: int, claim: string, clock: Clock, key: CopyKey) {
    && Holding(c, g, claim, clock) && KeyFault(key).None? && key.generation == g
    && KeyAt(g, CountCaptured(c, g), c.progress[g].next) == Some(key)
  }

  lemma AcceptsRecord(c: State, g: int, claim: string, clock: Clock, key: CopyKey)
    requires HoldsKey(c, g, claim, clock, key) && c.intents == map[]
    ensures Step(c, OnCopy(CallRecordIntent(key, claim, c.progress[g].next, clock.now)), clock) ==
      Outcome(Recorded(c, g, clock, key), Done)
  {
    HoldingView(c, g, claim, clock);
  }

  lemma AcceptsAttach(c: State, g: int, claim: string, clock: Clock, key: CopyKey, job: string)
    requires HoldsKey(c, g, claim, clock, key) && key in c.intents
    requires c.intents[key].job.None? || c.intents[key].job == Some(job)
    ensures Step(c, OnCopy(CallAttachJob(key, claim, c.progress[g].next, job)), clock) == Outcome(Attached(c, key, job), Done)
  {
    HoldingView(c, g, claim, clock);
  }

  lemma AcceptsSettle(c: State, g: int, claim: string, clock: Clock, key: CopyKey, job: string)
    requires HoldsKey(c, g, claim, clock, key) && key in c.intents && c.intents[key].job == Some(job)
    requires c.intents - {key} == map[]
    ensures Step(c, OnCopy(CallSettleIntent(key, claim, c.progress[g].next, job, true)), clock) ==
      Outcome(AtPosition(c, g, c.progress[g].next + 1), Done)
  {
    HoldingView(c, g, claim, clock);
  }

  function RecordEvent(c: State, g: int, claim: string, clock: Clock, key: CopyKey): Event
    requires g in c.progress
  {
    Event(OnCopy(CallRecordIntent(key, claim, c.progress[g].next, clock.now)), clock)
  }

  function AttachEvent(c: State, g: int, claim: string, clock: Clock, key: CopyKey, job: string): Event
    requires g in c.progress
  {
    Event(OnCopy(CallAttachJob(key, claim, c.progress[g].next, job)), clock)
  }

  function SettleEvent(c: State, g: int, claim: string, clock: Clock, key: CopyKey, job: string): Event
    requires g in c.progress
  {
    Event(OnCopy(CallSettleIntent(key, claim, c.progress[g].next, job, true)), clock)
  }

  /** The calls of snapshot rounds: the gate, the claim, the Copies and their recovery. */
  predicate RoundCall(call: Call) {
    call.OnGate? || call.OnLease? || call.OnCopy? || call.OnRecovery?
  }

  // ---- runs put together ----

  lemma ContinueOne(c: State, e: Event)
    ensures Continue(c, [e]) == Step(c, e.call, e.clock).state
  {
    assert [e][..0] == [];
    assert Continue(c, []) == c;
  }

  lemma {:induction false} ContinueConcat(c: State, a: seq<Event>, b: seq<Event>)
    ensures Continue(c, a + b) == Continue(Continue(c, a), b)
  {
    if b == [] {
      assert a + b == a;
    } else {
      assert (a + b)[..|a + b| - 1] == a + b[..|b| - 1];
      ContinueConcat(c, a, b[..|b| - 1]);
    }
  }

  /** A run of round calls inside the window leads from one state to another. */
  ghost predicate Carries(c: State, run: seq<Event>, c1: State, clock: Clock) {
    Continue(c, run) == c1 && forall i :: 0 <= i < |run| ==> RoundCall(run[i].call) && run[i].clock == clock
  }

  lemma CarriesNone(c: State, clock: Clock)
    ensures Carries(c, [], c, clock)
  {}

  lemma CarriesOne(c: State, e: Event, c1: State)
    requires RoundCall(e.call) && Step(c, e.call, e.clock).state == c1
    ensures Carries(c, [e], c1, e.clock)
  {
    ContinueOne(c, e);
  }

  lemma CarriesOn(c: State, a: seq<Event>, c1: State, b: seq<Event>, c2: State, clock: Clock)
    requires Carries(c, a, c1, clock) && Carries(c1, b, c2, clock)
    ensures Carries(c, a + b, c2, clock)
  {
    ContinueConcat(c, a, b);
  }

  lemma RecordCarries(c: State, g: int, claim: string, clock: Clock, key: CopyKey) returns (run: seq<Event>)
    requires HoldsKey(c, g, claim, clock, key) && c.intents == map[]
    ensures Carries(c, run, Recorded(c, g, clock, key), clock)
  {
    AcceptsRecord(c, g, claim, clock, key);
    run := [RecordEvent(c, g, claim, clock, key)];
    CarriesOne(c, run[0], Recorded(c, g, clock, key));
  }

  lemma AttachCarries(c: State, g: int, claim: string, clock: Clock, key: CopyKey, job: string) returns (run: seq<Event>)
    requires HoldsKey(c, g, claim, clock, key) && key in c.intents
    requires c.intents[key].job.None? || c.intents[key].job == Some(job)
    ensures Carries(c, run, Attached(c, key, job), clock)
  {
    AcceptsAttach(c, g, claim, clock, key, job);
    run := [AttachEvent(c, g, claim, clock, key, job)];
    CarriesOne(c, run[0], Attached(c, key, job));
  }

  lemma SettleCarries(c: State, g: int, claim: string, clock: Clock, key: CopyKey, job: string) returns (run: seq<Event>)
    requires HoldsKey(c, g, claim, clock, key) && key in c.intents && c.intents[key].job == Some(job)
    requires c.intents - {key} == map[]
    ensures Carries(c, run, AtPosition(c, g, c.progress[g].next + 1), clock)
  {
    AcceptsSettle(c, g, claim, clock, key, job);
    run := [SettleEvent(c, g, claim, clock, key, job)];
    CarriesOne(c, run[0], AtPosition(c, g, c.progress[g].next + 1));
  }

  lemma AttachedFacts(c: State, g: int, claim: string, clock: Clock, key: CopyKey, job: string)
    requires HoldsKey(c, g, claim, clock, key) && key in c.intents && c.intents - {key} == map[]
    ensures
      var c1 := Attached(c, key, job);
      && HoldsKey(c1, g, claim, clock, key) && key in c1.intents && c1.intents[key].job == Some(job)
      && c1.intents - {key} == map[] && AtPosition(c1, g, c.progress[g].next + 1) == AtPosition(c, g, c.progress[g].next + 1)
      && c1.progress == c.progress
  {
    assert Attached(c, key, job).intents - {key} == c.intents - {key};
  }

  lemma RecordedFacts(c: State, g: int, claim: string, clock: Clock, key: CopyKey)
    requires HoldsKey(c, g, claim, clock, key)
    ensures
      var c1 := Recorded(c, g, clock, key);
      && HoldsKey(c1, g, claim, clock, key) && key in c1.intents && c1.intents[key].job.None?
      && c1.intents - {key} == map[] && AtPosition(c1, g, c.progress[g].next + 1) == AtPosition(c, g, c.progress[g].next + 1)
      && c1.progress == c.progress
  {}

  /** The one outstanding Copy has its job, and settling it as done leads to these tables. */
  predicate Settleable(c: State, g: int, claim: string, clock: Clock, key: CopyKey, job: string, settled: State) {
    && HoldsKey(c, g, claim, clock, key) && key in c.intents && c.intents[key].job == Some(job)
    && c.intents - {key} == map[] && settled == AtPosition(c, g, c.progress[g].next + 1)
  }

  lemma AttachedIsSettleable(c: State, g: int, claim: string, clock: Clock, key: CopyKey, job: string)
    requires HoldsKey(c, g, claim, clock, key) && key in c.intents && c.intents - {key} == map[]
    ensures Settleable(Attached(c, key, job), g, claim, clock, key, job, AtPosition(c, g, c.progress[g].next + 1))
  {
    AttachedFacts(c, g, claim, clock, key, job);
  }

  lemma SettleableCarries(c: State, g: int, claim: string, clock: Clock, key: CopyKey, job: string, settled: State)
    returns (run: seq<Event>)
    requires Settleable(c, g, claim, clock, key, job, settled)
    ensures Carries(c, run, settled, clock)
  {
    run := SettleCarries(c, g, claim, clock, key, job);
  }

  /** An outstanding Copy is carried through. */
  lemma OutstandingIsCarried(c: State, g: int, claim: string, clock: Clock, key: CopyKey) returns (run: seq<Event>)
    requires HoldsKey(c, g, claim, clock, key) && key in c.intents && c.intents - {key} == map[]
    ensures Carries(c, run, AtPosition(c, g, c.progress[g].next + 1), clock)
  {
    var job := if c.intents[key].job.Some? then c.intents[key].job.value else "job";
    var attach := AttachCarries(c, g, claim, clock, key, job);
    var settled := AtPosition(c, g, c.progress[g].next + 1);
    AttachedIsSettleable(c, g, claim, clock, key, job);
    var settle := SettleableCarries(Attached(c, key, job), g, claim, clock, key, job, settled);
    CarriesOn(c, attach, Attached(c, key, job), settle, settled, clock);
    run := attach + settle;
  }

  lemma OnlyKey(c: State, g: int, key: CopyKey)
    requires CursorOnly(c, g) && KeyAt(g, CountCaptured(c, g), c.progress[g].next) == Some(key)
    ensures c.intents - {key} == map[] && (key !in c.intents ==> c.intents == map[])
  {
    assert (c.intents - {key}).Keys == {};
    if key !in c.intents {
      assert c.intents.Keys == {};
    }
  }

  /** A Copy that is not outstanding yet is recorded and carried through. */
  lemma NewIsCarried(c: State, g: int, claim: string, clock: Clock, key: CopyKey) returns (run: seq<Event>)
    requires HoldsKey(c, g, claim, clock, key) && c.intents == map[]
    ensures Carries(c, run, AtPosition(c, g, c.progress[g].next + 1), clock)
  {
    var record := RecordCarries(c, g, claim, clock, key);
    var c1 := Recorded(c, g, clock, key);
    RecordedFacts(c, g, claim, clock, key);
    var rest := OutstandingIsCarried(c1, g, claim, clock, key);
    CarriesOn(c, record, c1, rest, AtPosition(c, g, c.progress[g].next + 1), clock);
    run := record + rest;
  }

  /** The Copy at the cursor is carried through, whether it is outstanding or not. */
  lemma CopyIsCarried(c: State, g: int, claim: string, clock: Clock) returns (run: seq<Event>)
    requires Holding(c, g, claim, clock) && CursorOnly(c, g) && Plannable(g, CountCaptured(c, g))
    requires c.progress[g].next < CopyCount(CountCaptured(c, g))
    ensures Carries(c, run, AtPosition(c, g, c.progress[g].next + 1), clock)
  {
    var key := KeyAt(g, CountCaptured(c, g), c.progress[g].next).value;
    PlannedKeyIsValid(g, CountCaptured(c, g), c.progress[g].next);
    OnlyKey(c, g, key);
    if key in c.intents {
      run := OutstandingIsCarried(c, g, claim, clock, key);
    } else {
      run := NewIsCarried(c, g, claim, clock, key);
    }
  }

  /** The cursor reaches the end, with nothing outstanding and nothing else moved. */
  predicate CopiedTo(c: State, c1: State, g: int) {
    && g in c.progress && c1.intents == map[]
    && c1 == c.(
         progress := c.progress[g := c.progress[g].(next := CopyCount(CountCaptured(c, g)))], intents := map[], check := c1.check)
  }

  lemma NothingOutstandingAtEnd(c: State, g: int)
    requires CursorOnly(c, g) && c.progress[g].next == CopyCount(CountCaptured(c, g))
    ensures CopiedTo(c, c, g)
  {
    assert c.intents.Keys == {};
    assert c.progress[g := c.progress[g]] == c.progress;
  }

  lemma NextPosition(c: State, g: int, claim: string, clock: Clock)
    requires Holding(c, g, claim, clock) && c.progress[g].next < CopyCount(CountCaptured(c, g))
    ensures
      var c1 := AtPosition(c, g, c.progress[g].next + 1);
      && Holding(c1, g, claim, clock) && CursorOnly(c1, g) && CountCaptured(c1, g) == CountCaptured(c, g)
      && c1.progress[g].next == c.progress[g].next + 1
      && forall c2 :: CopiedTo(c1, c2, g) ==> CopiedTo(c, c2, g)
  {
    var c1 := AtPosition(c, g, c.progress[g].next + 1);
    forall c2 | CopiedTo(c1, c2, g) ensures CopiedTo(c, c2, g) {
      var total := CopyCount(CountCaptured(c, g));
      assert c1.progress[g := c1.progress[g].(next := total)] == c.progress[g := c.progress[g].(next := total)];
    }
  }

  /** All Copies that remain are carried through. */
  lemma {:induction false} CopiesAreCarried(c: State, g: int, claim: string, clock: Clock) returns (run: seq<Event>, c1: State)
    requires Holding(c, g, claim, clock) && CursorOnly(c, g) && Plannable(g, CountCaptured(c, g))
    ensures Carries(c, run, c1, clock) && CopiedTo(c, c1, g)
    decreases CopyCount(CountCaptured(c, g)) - c.progress[g].next
  {
    if c.progress[g].next == CopyCount(CountCaptured(c, g)) {
      NothingOutstandingAtEnd(c, g);
      CarriesNone(c, clock);
      run, c1 := [], c;
    } else {
      var first := CopyIsCarried(c, g, claim, clock);
      var next := AtPosition(c, g, c.progress[g].next + 1);
      NextPosition(c, g, claim, clock);
      var rest;
      rest, c1 := CopiesAreCarried(next, g, claim, clock);
      CarriesOn(c, first, next, rest, c1, clock);
      run := first + rest;
    }
  }

  // ---- taking over, beginning and finishing ----

  /** An old lease, of a drain or of a claim, has run out. */
  predicate LeaseOver(c: State, clock: Clock) {
    c.gateExpires.Some? ==> c.gateExpires.value <= clock.now
  }

  /** The tables with the claim taken at this time. */
  function Taken(c: State, g: int, claim: string, clock: Clock): State
    requires g in c.progress
  {
    c.(progress := c.progress[g := c.progress[g].(claim := claim)], gateExpires := Some(clock.now + SNAPSHOT_LEASE_MS))
  }

  lemma AcceptsClaim(c: State, claim: string, clock: Clock)
    requires GenerationInv(c) && c.phase.Snapshot? && c.erasureStartedAt.None? && LeaseOver(c, clock)
    ensures
      var g: int := c.lastGeneration;
      && g in c.progress && Step(c, OnLease(CallClaimSnapshot(claim)), clock).state == Taken(c, g, claim, clock)
      && Holding(Taken(c, g, claim, clock), g, claim, clock) && CursorOnly(Taken(c, g, claim, clock), g)
  {}

  lemma AcceptsResume(c: State, clock: Clock)
    requires c.failure.Some? && c.erasureStartedAt.None?
    ensures Step(c, OnRecovery(CallResume(c.failure.value.generation)), clock).state == c.(failure := None)
  {}

  lemma AcceptsBegin(c: State, claim: string, clock: Clock)
    requires GenerationInv(c) && InWindow(c, clock.oldest, clock.today) && !c.phase.Snapshot?
    requires c.active == map[] && c.erasureStartedAt.None? && c.failure.None? && c.lastGeneration < MAX_SAFE_INTEGER
    requires DayGraph.Select(c.dirty, c.incomplete, c.links) != {}
    ensures
      var out := Step(c, OnGate(CallBeginSnapshot(claim)), clock);
      var g: int := c.lastGeneration + 1;
      && out.reply == Begun(g, DayGraph.Select(c.dirty, c.incomplete, c.links)) && SameDayTables(c, out.state)
      && Holding(out.state, g, claim, clock) && out.state.intents == map[]
      && out.state.lastGeneration == c.lastGeneration + 1
      && out.state.captured == map[g := DayGraph.Select(c.dirty, c.incomplete, c.links)]
  {
    RecoverIsQuiet(c, clock);
    RecoverShape(c, clock.now);
    BeginShape(c, claim, clock);
  }

  function Stamp(c: State, g: int, clock: Clock): State
    requires g in c.progress
  {
    c.(progress := c.progress[g := c.progress[g].(manifestAt :=
      if c.progress[g].manifestAt.None? then Some(clock.now) else c.progress[g].manifestAt)])
  }

  /** Every captured day is retained at this time. */
  predicate CaptureRetained(c: State, clock: Clock) {
    forall d :: d in CapturedDays(c) ==> clock.Retains(d)
  }

  lemma AcceptsManifest(c: State, g: int, claim: string, clock: Clock)
    requires Holding(c, g, claim, clock) && CaptureRetained(c, clock)
    requires c.progress[g].next == CopyCount(CountCaptured(c, g))
    ensures Step(c, OnGate(CallPrepareManifest(g, claim)), clock).state == Stamp(c, g, clock)
  {
    HoldingView(c, g, claim, clock);
  }

  lemma AcceptsFinish(c: State, g: int, claim: string, clock: Clock)
    requires Holding(c, g, claim, clock) && CaptureRetained(c, clock) && c.intents == map[]
    requires c.progress[g].next == CopyCount(CountCaptured(c, g))
    ensures Step(c, OnGate(CallFinishSnapshot(g, claim)), clock) ==
      Outcome(FinishCapture(c, g, clock).(check := None), Finished(g, CountCaptured(c, g)))
  {
    HoldingView(c, g, claim, clock);
  }

  /** The manifest is stamped and the generation finished. */
  lemma FinishIsCarried(c: State, g: int, claim: string, clock: Clock) returns (run: seq<Event>)
    requires Holding(c, g, claim, clock) && CaptureRetained(c, clock) && c.intents == map[]
    requires c.progress[g].next == CopyCount(CountCaptured(c, g))
    ensures Carries(c, run, FinishCapture(Stamp(c, g, clock), g, clock).(check := None), clock)
  {
    var stamped := Stamp(c, g, clock);
    var manifest := Event(OnGate(CallPrepareManifest(g, claim)), clock);
    var finish := Event(OnGate(CallFinishSnapshot(g, claim)), clock);
    AcceptsManifest(c, g, claim, clock);
    CarriesOne(c, manifest, stamped);
    assert CapturedDays(stamped) == CapturedDays(c);
    AcceptsFinish(stamped, g, claim, clock);
    CarriesOne(stamped, finish, FinishCapture(stamped, g, clock).(check := None));
    CarriesOn(c, [manifest], stamped, [finish], FinishCapture(stamped, g, clock).(check := None), clock);
    run := [manifest] + [finish];
  }
}
