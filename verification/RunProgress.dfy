/**
 * What calm runs of the snapshot runner add up to: while the Copy service cooperates every run takes
 * the generation further, so that a bounded number of them publishes it; and a run that ends in an
 * error has recorded why, which holds later runs off until an operator resumes.
 */
module RunProgress {
  import opened Contract
  import opened CopyPlan
  import opened CoordinatorModel
  import opened CoordinatorInvariants
  import opened CoordinatorReplies
  import opened Publication
  import opened PublicationInvariants
  import opened PublicationCalls
  import opened SnapshotRounds
  import opened SnapshotTurns
  import DayGraph

  /** How far a generation has come: each Copy counts once it is recorded, and again once it is settled. */
  function Steps(c: State, g: int): nat {
    if g !in c.progress then 0 else 2 * c.progress[g].next + if c.intents == map[] then 0 else 1
  }

  /** A check, if there is one, may be made: it is due, not blocked and within its budgets. */
  predicate Due(c: State, clock: Clock) {
    c.check.Some? ==>
      && c.check.value.blocked.None? && c.check.value.nextCheckAt <= clock.now
      && c.check.value.statusChecks < STATUS_CHECK_BUDGET && c.check.value.recoveryChecks < RECOVERY_CHECK_BUDGET
  }

  /** The Copy service accepts what it is asked to start, and what it was asked to start is done. */
  predicate Cooperates(said: Said) {
    match said
    case Unasked => true
    case StartSaid(start) => start.Receipt?
    case StatusSaid(_, read) => read == Status(JobDone)
    case ReceiptSaid(found) => found.Found? && found.status.JobDone?
  }

  /** A snapshot is under way and nobody holds it. */
  ghost predicate UnderWay(c: State, g: int, clock: Clock) {
    && Inv(c) && InWindow(c, clock.oldest, clock.today) && c.erasureStartedAt.None?
    && c.activeGeneration == Some(g) && LeaseOver(c, clock)
  }

  /** A run in which nothing is in the way: the wake-up and the check are due, the slot is granted, the service cooperates. */
  ghost predicate Unhindered(c: State, g: int, clock: Clock, asleep: bool, heard: Heard) {
    && UnderWay(c, g, clock) && Plannable(g, CountCaptured(c, g)) && Due(c, clock) && !asleep
    && heard.acquired == Some(true) && Cooperates(heard.said) && heard.landed
  }

  /** Reading the counters changes nothing while a snapshot is under way. */
  lemma CountingIsQuiet(c: State, g: int, clock: Clock)
    requires Inv(c) && InWindow(c, clock.oldest, clock.today) && c.activeGeneration == Some(g)
    ensures Counted(c, clock) == c
  {
    RecoverIsQuiet(c, clock);
  }

  lemma EntersTaken(c: State, g: int, claim: string, clock: Clock, asleep: bool, heard: Heard)
    requires Unhindered(c, g, clock, asleep, heard)
    ensures g in c.progress && EntryOf(c, claim, clock, asleep) == Entry(Taken(c, g, claim, clock), None)
    ensures Ready(Taken(c, g, claim, clock), g, claim, clock)
  {
    SnapshotIsInOrder(c, g, clock);
    CountingIsQuiet(c, g, clock);
    TakenIsReady(c, g, claim, clock);
  }

  lemma DueIsReady(c: State, g: int, claim: string, clock: Clock, recovery: bool)
    requires Ready(c, g, claim, clock) && Due(c, clock)
    ensures Checked(c, g, claim, clock, recovery).reply.CheckResult? && Checked(c, g, claim, clock, recovery).reply.ready
  {
    HoldingView(c, g, claim, clock);
  }

  /** A turn that does not go on although the service cooperates has started the next Copy. */
  lemma LastTurnStarts(c: State, g: int, claim: string, clock: Clock, key: CopyKey, said: Said)
    requires Ready(c, g, claim, clock) && Due(c, clock) && CursorKey(c, g) == Some(key) && Cooperates(said)
    requires Asks(c, g, claim, clock, key, said) && !TurnEnds(c, g, claim, clock, key, said).tried.Onward?
    ensures
      var ending := TurnEnds(c, g, claim, clock, key, said);
      && c.intents == map[] && ending.tried == Returned(Continued) && ending.state.activeGeneration == Some(g)
      && ending.state.captured == c.captured && ending.state.progress == c.progress && ending.state.intents != map[]
  {
    if key in c.intents {
      DueIsReady(c, g, claim, clock, NeedsReceipt(c, key));
      assert false;
    }
    OnlyKey(c, g, key);
  }

  lemma MovedIsDue(c: State, at: State, g: int, clock: Clock)
    requires MovedTo(c, at, g) && Due(c, clock)
    ensures Due(at, clock) && at.captured == c.captured && Steps(at, g) >= Steps(c, g)
  {}

  /** How an unhindered run ends from the moment the claim is taken. */
  lemma UnhinderedEnds(c: State, g: int, claim: string, clock: Clock, heard: Heard)
    requires Ready(c, g, claim, clock) && Due(c, clock) && Plannable(g, CountCaptured(c, g)) && Hears(c, g, claim, clock, heard)
    requires heard.acquired == Some(true) && Cooperates(heard.said) && heard.landed
    ensures
      var ends := AdmittedEnds(c, g, claim, clock, heard);
      && (ends.result == Complete(g) || ends.result == Continued)
      && (ends.result == Continued ==>
            && ends.state.activeGeneration == Some(g) && ends.state.captured == c.captured
            && Steps(c, g) < Steps(ends.state, g) < 2 * CopyCount(CountCaptured(c, g)))
  {
    MovedIsDue(c, heard.at, g, clock);
    if AllCopied(heard.at, g) {
      DueIsReady(heard.at, g, claim, clock, false);
    } else {
      LastTurnStarts(heard.at, g, claim, clock, CursorKey(heard.at, g).value, heard.said);
    }
  }

  /** A Copy whose job is reported done is settled, the cursor is one further and the run goes on. */
  lemma DoneCopyGoesOn(
    c: State, c1: State, g: int, claim: string, clock: Clock, key: CopyKey, said: Said, job: string, tried: Tried)
    requires ReadyFor(c, g, claim, clock, key) && Turn(c, c1, g, claim, clock, key, said, tried) && Reports(said, job, true)
    ensures tried.Onward? && c1 == AtPosition(c, g, c.progress[g].next + 1)
  {
    if said.ReceiptSaid? {
      assert tried == TurnEnds(c, g, claim, clock, key, said).tried;
    }
    OnwardTurn(c, c1, g, claim, clock, key, said);
  }

  /** One whose job is reported failed ends the generation with that failure. */
  lemma FailedCopyStops(
    c: State, c1: State, g: int, claim: string, clock: Clock, key: CopyKey, said: Said, job: string, tried: Tried)
    requires ReadyFor(c, g, claim, clock, key) && Turn(c, c1, g, claim, clock, key, said, tried) && Reports(said, job, false)
    ensures tried.Thrown? && c1.phase.Open? && c1.failure == Some(JobFailure(g, job, clock)) && c1.intents == map[]
  {}

  /** Every unhindered run publishes the generation or starts a further Copy of it. */
  lemma UnhinderedRunAdvances(
    c: State, c1: State, g: int, claim: string, clock: Clock, asleep: bool, heard: Heard, result: RunResult)
    requires Unhindered(c, g, clock, asleep, heard) && RunTurn(c, c1, claim, clock, asleep, heard, result)
    ensures result == Complete(g) || result == Continued
    ensures result == Continued ==>
      && c1.activeGeneration == Some(g) && c1.captured == c.captured
      && Steps(c, g) < Steps(c1, g) < 2 * CopyCount(CountCaptured(c, g))
  {
    EntersTaken(c, g, claim, clock, asleep, heard);
    UnhinderedEnds(Taken(c, g, claim, clock), g, claim, clock, heard);
  }

  datatype CalmRun = CalmRun(claim: string, clock: Clock, asleep: bool, heard: Heard, after: State, result: RunResult)

  /** Unhindered runs, one after the other, that are all continued. */
  ghost predicate AllContinued(c: State, g: int, runs: seq<CalmRun>)
    decreases |runs|
  {
    runs == [] || (
      && Unhindered(c, g, runs[0].clock, runs[0].asleep, runs[0].heard) && runs[0].result == Continued
      && RunTurn(c, runs[0].after, runs[0].claim, runs[0].clock, runs[0].asleep, runs[0].heard, runs[0].result)
      && AllContinued(runs[0].after, g, runs[1..]))
  }

  /** Unhindered runs cannot be continued for ever: the one after the last of these publishes the generation. */
  lemma {:induction false} ContinuedRunsAreFew(c: State, g: int, runs: seq<CalmRun>)
    requires AllContinued(c, g, runs) && runs != []
    ensures Steps(c, g) + |runs| < 2 * CopyCount(CountCaptured(c, g))
    decreases |runs|
  {
    var first := runs[0];
    UnhinderedRunAdvances(c, first.after, g, first.claim, first.clock, first.asleep, first.heard, first.result);
    if |runs| > 1 {
      ContinuedRunsAreFew(first.after, g, runs[1..]);
    }
  }

  // ---- errors ----

  /** A run that was admitted and ends in an error has ended its generation, kept every mark and recorded why. */
  lemma ErrorsAreRecorded(c: State, g: int, claim: string, clock: Clock, heard: Heard)
    requires Ready(c, g, claim, clock) && Hears(c, g, claim, clock, heard)
    ensures
      var ends := AdmittedEnds(c, g, claim, clock, heard);
      ends.result == Threw ==>
        && ends.state.phase.Open? && ends.state.failure.Some? && ends.state.failure.value.generation == g
        && forall d :: d in c.dirty && clock.Retains(d) ==> d in ends.state.dirty
  {
    var ending := GenerationEnds(c, g, claim, clock, heard);
    if ending.tried.Thrown? {
      ThrownKeepsMarks(c, g, claim, clock, heard);
    }
  }

  /** Either the generation has ended with a failure, or it is still held; either way every retained mark is kept. */
  ghost predicate Ended(c: State, c1: State, g: int, claim: string, clock: Clock) {
    && (Ready(c1, g, claim, clock) || (c1.phase.Open? && c1.failure.Some? && c1.failure.value.generation == g))
    && forall d :: d in c.dirty && clock.Retains(d) ==> d in c1.dirty
  }

  lemma ThrownKeepsMarks(c: State, g: int, claim: string, clock: Clock, heard: Heard)
    requires Ready(c, g, claim, clock) && Hears(c, g, claim, clock, heard)
    requires GenerationEnds(c, g, claim, clock, heard).tried.Thrown?
    ensures Ended(c, GenerationEnds(c, g, claim, clock, heard).state, g, claim, clock)
  {
    if heard.acquired == Some(true) && Plannable(g, CountCaptured(c, g)) {
      if AllCopied(heard.at, g) {
        UnpublishedIsReady(heard.at, g, claim, clock);
      } else {
        TurnKeepsMarks(heard.at, g, claim, clock, CursorKey(heard.at, g).value, heard.said);
      }
    }
  }

  lemma TurnKeepsMarks(c: State, g: int, claim: string, clock: Clock, key: CopyKey, said: Said)
    requires Ready(c, g, claim, clock) && CursorKey(c, g) == Some(key) && Asks(c, g, claim, clock, key, said)
    requires TurnEnds(c, g, claim, clock, key, said).tried.Thrown?
    ensures Ended(c, TurnEnds(c, g, claim, clock, key, said).state, g, claim, clock)
  {
    ThrownTurn(c, TurnEnds(c, g, claim, clock, key, said).state, g, claim, clock, key, said);
  }

  lemma CountingKeepsFailure(c: State, clock: Clock)
    requires GateInv(c)
    ensures Counted(c, clock).failure == c.failure && Counted(c, clock).erasureStartedAt == c.erasureStartedAt
  {
    RecoverShape(c, clock.now);
  }

  /** A recorded failure turns every later run away, until an operator resumes the generation. */
  lemma FailureTurnsRunsAway(c: State, c1: State, claim: string, clock: Clock, asleep: bool, heard: Heard, result: RunResult)
    requires GateInv(c) && c.failure.Some? && c.erasureStartedAt.None?
    requires RunTurn(c, c1, claim, clock, asleep, heard, result)
    ensures result == Blocked && c1 == Counted(c, clock) && c1.failure == c.failure
  {
    CountingKeepsFailure(c, clock);
    assert EntryOf(c, claim, clock, asleep) == Entry(Counted(c, clock), Some(Blocked));
  }

  // ---- admission ----

  /** While deliveries are active the gate is closed to further ones, and the run is tried again later. */
  lemma DeliveriesAreWaitedFor(c: State, c1: State, claim: string, clock: Clock, heard: Heard, result: RunResult)
    requires Inv(c) && c.erasureStartedAt.None? && c.failure.None?
    requires c.phase.Open? && c.active != map[] && |Counted(c, clock).dirty| > |Counted(c, clock).incomplete|
    requires RunTurn(c, c1, claim, clock, false, heard, result)
    ensures result == Retry && c1.phase.Draining? && c1.active == c.active
    ensures c1.gateExpires == Some(clock.now + SNAPSHOT_LEASE_MS)
  {
    OutsideStartsFrom(c, clock);
  }

  /** What a run finds, unless a snapshot is under way: the same days, and a gate that is open or still drained. */
  lemma CountedOutside(c: State, clock: Clock)
    requires Inv(c) && InWindow(c, clock.oldest, clock.today) && !c.phase.Snapshot?
    ensures
      var c0 := Counted(c, clock);
      && Inv(c0) && SameDayTables(c, c0) && !c0.phase.Snapshot? && c0.failure == c.failure && c0.check.None?
      && c0.lastGeneration == c.lastGeneration
  {
    RecoverIsQuiet(c, clock);
    StepKeepsInv(c, OnGate(CallGetStats), clock);
    OutsideStartsFrom(c, clock);
  }

  lemma SelectedIsComplete(c: State)
    requires Inv(c) && DayGraph.Select(c.dirty, c.incomplete, c.links) != {}
    ensures |c.dirty| > |c.incomplete|
  {
    var days := DayGraph.Select(c.dirty, c.incomplete, c.links);
    DayGraph.SelectIsCapture(c.dirty, c.incomplete, c.links);
    DayGraph.NonEmpty(days);
    var d :| d in days;
    assert c.incomplete <= c.dirty - {d};
    DayGraph.SubsetCardinality(c.incomplete, c.dirty - {d});
  }

  /** What a capture starts from: the tables found, with the gate closed. */
  function Drained(c: State, clock: Clock): State {
    if c.phase.Open? then Closed(c, clock) else c
  }

  lemma DrainedKeeps(c: State, clock: Clock)
    requires Inv(c) && InWindow(c, clock.oldest, clock.today) && !c.phase.Snapshot?
    requires c.erasureStartedAt.None? && c.failure.None? && |c.dirty| > |c.incomplete|
    ensures Inv(Drained(c, clock)) && SameDayTables(c, Drained(c, clock)) && Drained(c, clock).lastGeneration == c.lastGeneration
    ensures Drained(c, clock).failure.None? && !Drained(c, clock).phase.Snapshot?
  {
    if c.phase.Open? {
      DrainIsServed(c, clock);
      StepKeepsInv(c, OnGate(CallRequestSnapshot), clock);
      ClosedKeepsDays(c, clock);
    }
  }

  lemma ClosedKeepsDays(c: State, clock: Clock)
    requires InWindow(c, clock.oldest, clock.today)
    ensures SameDayTables(c, Closed(c, clock))
  {
    var c1 := Closed(c, clock);
    assert c1.dirty == c.dirty && c1.incomplete == c.incomplete && c1.links == c.links;
  }

  /** The tables hold the next generation, with exactly these days captured and nothing outstanding. */
  predicate Begins(c: State, entry: Entry, days: set<Day>) {
    var g: int := c.lastGeneration + 1;
    && entry.turned.None? && entry.state.activeGeneration == Some(g) && entry.state.intents == map[]
    && entry.state.captured == map[g := days]
  }

  lemma BegunIsEntered(c: State, claim: string, clock: Clock)
    requires Step(c, OnGate(CallBeginSnapshot(claim)), clock).reply.Begun?
    ensures CaptureEntry(c, claim, clock) == Entry(Step(c, OnGate(CallBeginSnapshot(claim)), clock).state, None)
  {}

  lemma AcceptedCapture(c: State, claim: string, clock: Clock, days: set<Day>)
    requires Inv(c) && InWindow(c, clock.oldest, clock.today) && !c.phase.Snapshot? && c.active == map[]
    requires c.erasureStartedAt.None? && c.failure.None? && c.lastGeneration < MAX_SAFE_INTEGER
    requires days == DayGraph.Select(c.dirty, c.incomplete, c.links) && days != {}
    ensures Begins(c, CaptureEntry(c, claim, clock), days)
  {
    AcceptsBegin(c, claim, clock);
    BegunIsEntered(c, claim, clock);
  }

  lemma DrainedIsEntered(c: State, claim: string, clock: Clock)
    requires c.active == map[] && |c.dirty| > |c.incomplete|
    ensures DrainEntry(c, claim, clock) == CaptureEntry(Drained(c, clock), claim, clock)
  {}

  lemma CountedIsEntered(c: State, claim: string, clock: Clock)
    requires
      var c0 := Counted(c, clock);
      c0.erasureStartedAt.None? && c0.failure.None? && c0.check.None? && !c0.phase.Snapshot?
    ensures EntryOf(c, claim, clock, false) == DrainEntry(Counted(c, clock), claim, clock)
  {}

  lemma SameBeginning(c: State, c1: State, entry: Entry, entry1: Entry, days: set<Day>)
    requires Begins(c1, entry1, days) && entry == entry1 && c1.lastGeneration == c.lastGeneration
    ensures Begins(c, entry, days)
  {}

  /** With no delivery active and something to capture, a run begins the next generation with exactly that. */
  lemma RunCaptures(c: State, claim: string, clock: Clock)
    requires Inv(c) && InWindow(c, clock.oldest, clock.today) && !c.phase.Snapshot? && c.active == map[]
    requires c.erasureStartedAt.None? && c.failure.None? && c.lastGeneration < MAX_SAFE_INTEGER
    requires DayGraph.Select(c.dirty, c.incomplete, c.links) != {}
    ensures Begins(c, EntryOf(c, claim, clock, false), DayGraph.Select(c.dirty, c.incomplete, c.links))
  {
    var c0 := Counted(c, clock);
    CountedOutside(c, clock);
    CountedIsEntered(c, claim, clock);
    SelectedIsComplete(c0);
    DrainedIsEntered(c0, claim, clock);
    DrainedKeeps(c0, clock);
    var days, c1 := DayGraph.Select(c.dirty, c.incomplete, c.links), Drained(c0, clock);
    AcceptedCapture(c1, claim, clock, days);
    SameBeginning(c, c1, EntryOf(c, claim, clock, false), CaptureEntry(c1, claim, clock), days);
  }
}
