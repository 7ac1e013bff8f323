/**
 * What a run of the snapshot runner comes to while nobody else acts and every call is answered: how
 * a turn at the cursor ends, given what the Copy service says, and how a generation, an admission
 * and a whole run end.
 */
module SnapshotTurns {
  import opened Contract
  import opened CopyPlan
  import opened CoordinatorModel
  import opened CoordinatorInvariants
  import opened CoordinatorReplies
  import opened Publication
  import opened PublicationInvariants
  import opened PublicationCalls
  import opened SnapshotRounds
  import DayGraph

  datatype RunResult = Idle | Scheduled | Blocked | Retry | Continued | Complete(generation: int) | Threw

  /** How a part of a run ended: with a result, with an error, or so that the run goes on. */
  datatype Tried = Returned(result: RunResult) | Thrown | Onward

  datatype JobStatus = JobWaiting | JobWorking | JobDone | JobFailed

  datatype JobRead = Status(status: JobStatus) | Missing | NoAnswer

  datatype FoundJob = Found(job: string, status: JobStatus) | NotFound | Undiscovered

  datatype Start = Receipt(job: string) | Rejected(reason: string) | Unknown

  /** What the Copy service was asked in a turn, if anything, and what it said. */
  datatype Said = Unasked | StartSaid(start: Start) | StatusSaid(job: string, read: JobRead) | ReceiptSaid(found: FoundJob)

  /** The job is over, and this is how the service reported it. */
  predicate Reports(said: Said, job: string, succeeded: bool) {
    match said
    case StatusSaid(j, Status(status)) => j == job && status == if succeeded then JobDone else JobFailed
    case ReceiptSaid(Found(j, status)) => j == job && status == if succeeded then JobDone else JobFailed
    case _ => false
  }

  // ---- one turn at the cursor ----

  datatype Ending = Ending(state: State, tried: Tried)

  /** The claim is given up for now, and the run is continued later. */
  function Paused(c: State, clock: Clock): Ending {
    Ending(c.(gateExpires := Some(clock.now)), Returned(Continued))
  }

  function JobFailure(g: int, job: string, clock: Clock): Failure {
    Failure(g, "Snapshot Copy job " + job + " failed", clock.now)
  }

  /** A job that is done moves the cursor, one that failed ends the generation, and any other is waited for. */
  function JobEnds(c: State, g: int, clock: Clock, job: string, status: JobStatus): Ending
    requires g in c.progress
  {
    match status
    case JobDone => Ending(AtPosition(c, g, c.progress[g].next + 1), Onward)
    case JobFailed => Ending(GivenUp(c, clock, Some(JobFailure(g, job, clock))), Thrown)
    case _ => Paused(c, clock)
  }

  function WithRecovery(c: State): State {
    if c.check.None? then c else c.(check := Some(c.check.value.(recoveryRequired := true)))
  }

  /** A job that the service does not know is looked for at the next check. */
  function StatusEnds(c: State, g: int, clock: Clock, job: string, read: JobRead): Ending
    requires g in c.progress
  {
    match read
    case Status(status) => JobEnds(c, g, clock, job, status)
    case Missing => Paused(WithRecovery(c), clock)
    case NoAnswer => Ending(c, Thrown)
  }

  /** A job that was found is attached again; one that was not may still appear. */
  function ReceiptEnds(c: State, g: int, clock: Clock, key: CopyKey, found: FoundJob): Ending
    requires g in c.progress && key in c.intents
  {
    match found
    case Found(job, status) => JobEnds(Attached(c, key, job), g, clock, job, status)
    case NotFound => Paused(c, clock)
    case Undiscovered => Ending(c, Thrown)
  }

  /** The receipt of a submitted Copy is attached, and a rejected one ends the generation. */
  function SubmittedEnds(c: State, g: int, clock: Clock, key: CopyKey, start: Start): Ending
    requires key in c.intents
  {
    match start
    case Receipt(job) => Paused(Attached(c, key, job), clock)
    case Rejected(reason) => Ending(GivenUp(c, clock, Some(Failure(g, reason, clock.now))), Thrown)
    case Unknown => Ending(c, Thrown)
  }

  function AnswerEnds(c: State, g: int, clock: Clock, key: CopyKey, said: Said): Ending
    requires g in c.progress && key in c.intents
  {
    match said
    case ReceiptSaid(found) => ReceiptEnds(c, g, clock, key, found)
    case StatusSaid(job, read) => StatusEnds(c, g, clock, job, read)
    case _ => Paused(c, clock)
  }

  /** A Copy is recorded before it is submitted. */
  function StartEnds(c: State, g: int, clock: Clock, key: CopyKey, start: Start): Ending
    requires g in c.progress
  {
    SubmittedEnds(Recorded(c, g, clock, key), g, clock, key, start)
  }

  /** The job of the outstanding Copy must be looked for: it never answered, or it got lost. */
  predicate NeedsReceipt(c: State, key: CopyKey) {
    key in c.intents && (c.intents[key].job.None? || (c.check.Some? && c.check.value.recoveryRequired))
  }

  /** The check of the outstanding Copy. */
  ghost function Checked(c: State, g: int, claim: string, clock: Clock, recovery: bool): Outcome
    requires g in c.progress
  {
    Step(c, CheckCall(c, g, claim, recovery), clock)
  }

  /** What is asked of the Copy service: to start what is not outstanding, and about what is once a check is due. */
  ghost predicate Asks(c: State, g: int, claim: string, clock: Clock, key: CopyKey, said: Said) {
    g in c.progress &&
    if key !in c.intents then said.StartSaid?
    else
      var checked := Checked(c, g, claim, clock, NeedsReceipt(c, key));
      && checked.reply.CheckResult?
      && if !checked.reply.ready then said.Unasked?
         else if NeedsReceipt(c, key) then
           said.ReceiptSaid? && (said.found.Found? && c.intents[key].job.Some? ==> c.intents[key].job == Some(said.found.job))
         else said.StatusSaid? && c.intents[key].job == Some(said.job)
  }

  /** How a turn ends. */
  ghost function TurnEnds(c: State, g: int, claim: string, clock: Clock, key: CopyKey, said: Said): Ending
    requires Asks(c, g, claim, clock, key, said)
  {
    if key !in c.intents then StartEnds(c, g, clock, key, said.start)
    else
      AnswerEnds(c.(check := Some(Checked(c, g, claim, clock, NeedsReceipt(c, key)).reply.check)), g, clock, key, said)
  }

  ghost predicate Turn(c: State, c1: State, g: int, claim: string, clock: Clock, key: CopyKey, said: Said, tried: Tried) {
    Asks(c, g, claim, clock, key, said) && Ending(c1, tried) == TurnEnds(c, g, claim, clock, key, said)
  }

  // ---- when the calls of a turn are accepted ----

  /** The check, if there is one, is that of the position of the cursor. */
  predicate CheckFits(c: State, g: int) {
    g in c.progress && (c.check.Some? ==> c.check.value.generation == g && c.check.value.copyIndex == c.progress[g].next)
  }

  /** The generation is held, and nothing but its next Copy is outstanding or checked. */
  ghost predicate Ready(c: State, g: int, claim: string, clock: Clock) {
    Holding(c, g, claim, clock) && CaptureRetained(c, clock) && CursorOnly(c, g) && CheckFits(c, g)
  }

  /** Ready for the Copy of this key. */
  ghost predicate ReadyFor(c: State, g: int, claim: string, clock: Clock, key: CopyKey) {
    HoldsKey(c, g, claim, clock, key) && Ready(c, g, claim, clock)
  }

  /** During a snapshot, whoever holds it, the generation is in order. */
  lemma SnapshotIsInOrder(c: State, g: int, clock: Clock)
    requires Inv(c) && c.activeGeneration == Some(g) && InWindow(c, clock.oldest, clock.today)
    ensures c.phase.Snapshot? && c.failure.None? && c.gateExpires.Some? && CursorOnly(c, g) && CheckFits(c, g)
    ensures c.progress[g].next <= CopyCount(CountCaptured(c, g)) && CaptureRetained(c, clock)
  {
    CapturedDaysOne(c, g);
    forall d | d in CapturedDays(c) ensures clock.Retains(d) {
      assert d in c.dirty && Within(d, clock.oldest, clock.today);
    }
  }

  lemma HeldIsReady(c: State, g: int, claim: string, clock: Clock)
    requires Inv(c) && Holding(c, g, claim, clock) && InWindow(c, clock.oldest, clock.today)
    ensures Ready(c, g, claim, clock)
  {
    SnapshotIsInOrder(c, g, clock);
  }

  lemma TakenIsReady(c: State, g: int, claim: string, clock: Clock)
    requires c.phase.Snapshot? && c.activeGeneration == Some(g) && c.failure.None? && c.erasureStartedAt.None?
    requires CursorOnly(c, g) && CheckFits(c, g) && CaptureRetained(c, clock)
    requires c.progress[g].next <= CopyCount(CountCaptured(c, g))
    ensures Ready(Taken(c, g, claim, clock), g, claim, clock)
  {
    assert CapturedDays(Taken(c, g, claim, clock)) == CapturedDays(c);
  }

  lemma OnlyThisKey(c: State, g: int, claim: string, clock: Clock, key: CopyKey)
    requires ReadyFor(c, g, claim, clock, key)
    ensures c.intents - {key} == map[] && (key !in c.intents ==> c.intents == map[])
  {
    OnlyKey(c, g, key);
  }

  lemma CheckIsAnswered(c: State, g: int, claim: string, clock: Clock, recovery: bool)
    requires Ready(c, g, claim, clock)
    ensures
      var out := Checked(c, g, claim, clock, recovery);
      && out.reply.CheckResult? && out.state == c.(check := Some(out.reply.check)) && Ready(out.state, g, claim, clock)
  {
    HoldingView(c, g, claim, clock);
  }

  lemma ReleasePauses(c: State, g: int, claim: string, clock: Clock)
    requires Holding(c, g, claim, clock)
    ensures
      var out := Step(c, OnLease(CallReleaseClaim(g, claim)), clock);
      out.reply.Claimed? && out.state == Paused(c, clock).state
  {
    LeaseSetIff(c, g, claim, c.gateExpires.value, claim, clock, clock.now);
  }

  lemma RecoveryIsRequired(c: State, g: int, claim: string, clock: Clock)
    requires Holding(c, g, claim, clock)
    ensures Step(c, OnRecovery(CallRequireRecovery(g, claim)), clock) == Outcome(WithRecovery(c), Done)
  {
    HoldingView(c, g, claim, clock);
  }

  lemma ActiveIsConfirmed(c: State, g: int, claim: string, clock: Clock)
    requires Ready(c, g, claim, clock)
    ensures
      var out := Step(c, OnLease(CallAssertActive(g, claim)), clock);
      out.reply.IsActive? && out.state == c
  {
    HoldingView(c, g, claim, clock);
  }

  /** A finished Copy moves the cursor. */
  lemma DoneIsSettled(c: State, g: int, claim: string, clock: Clock, key: CopyKey, job: string)
    requires ReadyFor(c, g, claim, clock, key) && key in c.intents && c.intents[key].job == Some(job)
    ensures Step(c, OnCopy(CallSettleIntent(key, claim, c.progress[g].next, job, true)), clock) ==
      Outcome(JobEnds(c, g, clock, job, JobDone).state, Done)
  {
    OnlyThisKey(c, g, claim, clock, key);
    AcceptsSettle(c, g, claim, clock, key, job);
  }

  /** After that the claim still holds. */
  lemma SettledIsHeld(c: State, g: int, claim: string, clock: Clock, key: CopyKey)
    requires ReadyFor(c, g, claim, clock, key)
    ensures AssertClaim(AtPosition(c, g, c.progress[g].next + 1), g, claim, clock).Ok?
  {
    KeyIsBeforeEnd(c, g, claim, clock, key);
    HoldingView(AtPosition(c, g, c.progress[g].next + 1), g, claim, clock);
  }

  /** A failed one ends its generation. */
  lemma FailedIsSettled(c: State, g: int, claim: string, clock: Clock, key: CopyKey, job: string)
    requires Inv(c) && ReadyFor(c, g, claim, clock, key) && key in c.intents && c.intents[key].job == Some(job)
    ensures Step(c, OnCopy(CallSettleIntent(key, claim, c.progress[g].next, job, false)), clock) ==
      Outcome(JobEnds(c, g, clock, job, JobFailed).state, Done)
  {
    OnlyThisKey(c, g, claim, clock, key);
    FailedCopyEnds(c, g, claim, clock, key, job);
  }

  lemma RejectedEnds(c: State, g: int, claim: string, clock: Clock, key: CopyKey, reason: string)
    requires Inv(c) && ReadyFor(c, g, claim, clock, key) && key in c.intents && c.intents[key].job.None?
    ensures Step(c, OnCopy(CallRejectIntent(key, claim, c.progress[g].next, reason)), clock) ==
      Outcome(GivenUp(c, clock, Some(Failure(g, reason, clock.now))), Done)
  {
    OnlyThisKey(c, g, claim, clock, key);
    RejectedCopyEnds(c, g, claim, clock, key, reason);
  }

  lemma RecordedIsReady(c: State, g: int, claim: string, clock: Clock, key: CopyKey)
    requires ReadyFor(c, g, claim, clock, key)
    ensures ReadyFor(Recorded(c, g, clock, key), g, claim, clock, key)
  {}

  lemma AttachedIsReady(c: State, g: int, claim: string, clock: Clock, key: CopyKey, job: string)
    requires ReadyFor(c, g, claim, clock, key) && key in c.intents
    ensures ReadyFor(Attached(c, key, job), g, claim, clock, key)
    ensures key in Attached(c, key, job).intents && Attached(c, key, job).intents[key].job == Some(job)
  {
    OnlyThisKey(c, g, claim, clock, key);
  }

  /** A turn that goes on moves the cursor by one and leaves everything else as it was. */
  lemma OnwardTurn(c: State, c1: State, g: int, claim: string, clock: Clock, key: CopyKey, said: Said)
    requires ReadyFor(c, g, claim, clock, key) && Turn(c, c1, g, claim, clock, key, said, Onward)
    ensures c1 == AtPosition(c, g, c.progress[g].next + 1) && Ready(c1, g, claim, clock)
  {
    CheckIsAnswered(c, g, claim, clock, NeedsReceipt(c, key));
    assert key in c.intents;
    KeyIsBeforeEnd(c, g, claim, clock, key);
  }

  lemma KeyIsBeforeEnd(c: State, g: int, claim: string, clock: Clock, key: CopyKey)
    requires HoldsKey(c, g, claim, clock, key)
    ensures c.progress[g].next < CopyCount(CountCaptured(c, g))
  {}

  // ---- all turns of a generation, its manifest and its end ----

  /** The cursor moved on, maybe, and nothing else did. */
  predicate MovedTo(c: State, c1: State, g: int) {
    && g in c.progress && g in c1.progress
    && (c1 == c || (c.progress[g].next < c1.progress[g].next && c1 == AtPosition(c, g, c1.progress[g].next)))
  }

  lemma MovesOn(c: State, at: State, g: int)
    requires MovedTo(c, at, g)
    ensures MovedTo(c, AtPosition(at, g, at.progress[g].next + 1), g)
  {
    var next := at.progress[g].next + 1;
    assert at.progress[g := at.progress[g].(next := next)] == c.progress[g := c.progress[g].(next := next)];
  }

  predicate AllCopied(c: State, g: int) {
    g in c.progress && c.progress[g].next == CopyCount(CountCaptured(c, g))
  }

  /** The key at the cursor. */
  function CursorKey(c: State, g: int): Option<CopyKey>
    requires g in c.progress
  {
    KeyAt(g, CountCaptured(c, g), c.progress[g].next)
  }

  /** Once a check allows it the manifest is stamped; if it landed the generation is finished, else the run fails. */
  ghost function PublishEnds(c: State, g: int, claim: string, clock: Clock, landed: bool): Ending
    requires g in c.progress && Checked(c, g, claim, clock, false).reply.CheckResult?
  {
    var checked := Checked(c, g, claim, clock, false).reply;
    var c1 := c.(check := Some(checked.check));
    if !checked.ready then Paused(c1, clock)
    else
      var stamped := Stamp(c1, g, clock);
      if landed then Ending(FinishCapture(stamped, g, clock).(check := None), Onward) else Ending(stamped, Thrown)
  }

  /** Without a slot an untouched generation is given up, and one under way is continued later. */
  function SlotlessEnds(c: State, g: int, clock: Clock): Ending
    requires g in c.progress
  {
    if c.progress[g].next == 0 && c.intents == map[] then Ending(GivenUp(c, clock, None), Returned(Scheduled))
    else Paused(c, clock)
  }

  /**
   * What was heard while a generation was run: whether its slot was granted, if that was answered, where the
   * cursor had come to in the last turn, what the Copy service said in it, and whether the manifest landed.
   */
  datatype Heard = Heard(acquired: Option<bool>, at: State, said: Said, landed: bool)

  /** What was heard fits the tables the generation started from. */
  ghost predicate Hears(c: State, g: int, claim: string, clock: Clock, heard: Heard) {
    heard.acquired == Some(true) && Plannable(g, CountCaptured(c, g)) ==>
      && MovedTo(c, heard.at, g) && Ready(heard.at, g, claim, clock)
      && if AllCopied(heard.at, g) then Checked(heard.at, g, claim, clock, false).reply.CheckResult?
         else
           && CursorKey(heard.at, g).Some? && Asks(heard.at, g, claim, clock, CursorKey(heard.at, g).value, heard.said)
           && !TurnEnds(heard.at, g, claim, clock, CursorKey(heard.at, g).value, heard.said).tried.Onward?
  }

  /**
   * How a generation ends: without a slot an untouched one is given up and another is continued later;
   * with one the Copies run until a turn does not go on, or the manifest is published.
   */
  ghost function GenerationEnds(c: State, g: int, claim: string, clock: Clock, heard: Heard): Ending
    requires g in c.progress && Hears(c, g, claim, clock, heard)
  {
    if heard.acquired.None? then Ending(c, Thrown)
    else if !heard.acquired.value then SlotlessEnds(c, g, clock)
    else if !Plannable(g, CountCaptured(c, g)) then Ending(c, Thrown)
    else if AllCopied(heard.at, g) then PublishEnds(heard.at, g, claim, clock, heard.landed)
    else TurnEnds(heard.at, g, claim, clock, CursorKey(heard.at, g).value, heard.said)
  }

  /** How a run ends, and the tables then. */
  datatype Outcomes = Outcomes(state: State, result: RunResult)

  /** After an error a failed generation stays failed; one under way is continued later, and any other is given up. */
  function RecoveryEnds(c: State, g: int, clock: Clock): Outcomes {
    if c.failure.Some? && c.failure.value.generation == g then Outcomes(c, Threw)
    else if c.intents != map[] || AllCopied(c, g) then Outcomes(Paused(c, clock).state, Continued)
    else Outcomes(GivenUp(c, clock, Some(Failure(g, "Snapshot failed before Copy completion", clock.now))), Threw)
  }

  /** The tables after the counters were read. */
  ghost function Counted(c: State, clock: Clock): State {
    Step(c, OnGate(CallGetStats), clock).state
  }

  ghost function AdmittedEnds(c: State, g: int, claim: string, clock: Clock, heard: Heard): Outcomes
    requires g in c.progress && Hears(c, g, claim, clock, heard)
  {
    var ending := GenerationEnds(c, g, claim, clock, heard);
    match ending.tried
    case Returned(result) => Outcomes(ending.state, result)
    case Thrown => RecoveryEnds(ending.state, g, clock)
    case Onward => Outcomes(Counted(ending.state, clock), Complete(g))
  }

  // ---- admission ----

  /** The tables a run comes to before it has a generation to go on with, and how it is turned away, if it is. */
  datatype Entry = Entry(state: State, turned: Option<RunResult>)

  /** An active generation is taken over once its claim is over. */
  function TakeOver(c: State, claim: string, clock: Clock): Entry {
    if c.activeGeneration.None? || c.activeGeneration.value !in c.progress then Entry(c, Some(Threw))
    else
      var g := c.activeGeneration.value;
      if c.progress[g].claim == claim || LeaseOver(c, clock) then Entry(Taken(c, g, claim, clock), None)
      else Entry(c, Some(Retry))
  }

  /** A capture that begins is gone on with; one that cannot is nothing to do, or an error if a complete day is left. */
  ghost function CaptureEntry(c: State, claim: string, clock: Clock): Entry {
    var begun := Step(c, OnGate(CallBeginSnapshot(claim)), clock);
    if begun.reply.Begun? then Entry(begun.state, None)
    else
      var c1 := Counted(begun.state, clock);
      Entry(c1, Some(if |c1.dirty| <= |c1.incomplete| then Idle else Threw))
  }

  /** An open gate is closed when a complete day is dirty; then the active deliveries are waited for. */
  ghost function DrainEntry(c: State, claim: string, clock: Clock): Entry {
    if c.phase.Open? && |c.dirty| <= |c.incomplete| then Entry(c, Some(Idle))
    else
      var c1 := if c.phase.Open? then Closed(c, clock) else c;
      if c1.active != map[] then Entry(c1, Some(Retry)) else CaptureEntry(c1, claim, clock)
  }

  /** How a run is admitted. A failure, a blocked check or a later wake-up turns it away before anything else. */
  ghost function EntryOf(c: State, claim: string, clock: Clock, asleep: bool): Entry {
    var c0 := Counted(c, clock);
    if c0.erasureStartedAt.Some? then Entry(c0, Some(Idle))
    else if c0.failure.Some? || (c0.check.Some? && c0.check.value.blocked.Some?) then Entry(c0, Some(Blocked))
    else if asleep then Entry(c0, Some(Scheduled))
    else if c0.phase.Snapshot? then TakeOver(c0, claim, clock)
    else DrainEntry(c0, claim, clock)
  }

  /** A whole run, from the tables it found to those it leaves. */
  ghost predicate RunTurn(c: State, c1: State, claim: string, clock: Clock, asleep: bool, heard: Heard, result: RunResult) {
    var entry := EntryOf(c, claim, clock, asleep);
    if entry.turned.Some? then Outcomes(c1, result) == Outcomes(entry.state, entry.turned.value)
    else
      && entry.state.activeGeneration.Some? && entry.state.activeGeneration.value in entry.state.progress
      && var g := entry.state.activeGeneration.value;
         Hears(entry.state, g, claim, clock, heard)
         && Outcomes(c1, result) == AdmittedEnds(entry.state, g, claim, clock, heard)
  }

  // ---- when these calls are accepted ----

  lemma ManifestIsStamped(c: State, g: int, claim: string, clock: Clock)
    requires Ready(c, g, claim, clock) && AllCopied(c, g)
    ensures
      var out := Step(c, OnGate(CallPrepareManifest(g, claim)), clock);
      out.state == Stamp(c, g, clock) && out.reply.Claimed? && out.reply.view.manifestAt.Some?
  {
    HoldingView(c, g, claim, clock);
  }

  lemma StampedIsReady(c: State, g: int, claim: string, clock: Clock)
    requires Ready(c, g, claim, clock) && AllCopied(c, g)
    ensures Ready(Stamp(c, g, clock), g, claim, clock) && AllCopied(Stamp(c, g, clock), g)
  {
    assert CapturedDays(Stamp(c, g, clock)) == CapturedDays(c);
  }

  lemma FinishIsServed(c: State, g: int, claim: string, clock: Clock)
    requires Ready(c, g, claim, clock) && AllCopied(c, g)
    ensures
      var out := Step(c, OnGate(CallFinishSnapshot(g, claim)), clock);
      out.state == FinishCapture(c, g, clock).(check := None) && out.reply.Finished?
  {
    NothingOutstandingAtEnd(c, g);
    AcceptsFinish(c, g, claim, clock);
  }

  lemma CountingIsServed(c: State, clock: Clock)
    requires Inv(c)
    ensures !Step(c, OnGate(CallGetStats), clock).reply.Refused?
    ensures Counted(c, clock).phase.Snapshot? <==> c.phase.Snapshot?
  {
    RecoveredGate(c, clock);
  }

  lemma ClaimIsServed(c: State, claim: string, clock: Clock)
    requires Inv(c) && InWindow(c, clock.oldest, clock.today) && c.erasureStartedAt.None? && c.phase.Snapshot?
    ensures
      var out := Step(c, OnLease(CallClaimSnapshot(claim)), clock);
      var entry := TakeOver(c, claim, clock);
      && out.state == entry.state
      && (if entry.turned.Some? then entry.turned.value == Retry && out.reply == Nothing
          else
            && out.reply.Claimed? && out.state.activeGeneration == Some(out.reply.view.generation)
            && Ready(out.state, out.reply.view.generation, claim, clock))
  {
    var g := c.activeGeneration.value;
    SnapshotIsInOrder(c, g, clock);
    ClaimNamesGeneration(c, g, claim, clock);
    ClaimedIff(c, g, c.progress[g].claim, c.gateExpires.value, claim, clock);
    TakenIsReady(c, g, claim, clock);
  }

  lemma ClaimNamesGeneration(c: State, g: int, claim: string, clock: Clock)
    requires c.activeGeneration == Some(g)
    ensures
      var out := Step(c, OnLease(CallClaimSnapshot(claim)), clock);
      out.reply.Claimed? ==> out.reply.view.generation == g && out.state.activeGeneration == Some(g)
  {}

  lemma CaptureIsServed(c: State, claim: string, clock: Clock)
    requires Inv(c) && InWindow(c, clock.oldest, clock.today) && c.erasureStartedAt.None?
    requires !c.phase.Snapshot? && c.active == map[] && c.failure.None?
    ensures
      var begun := Step(c, OnGate(CallBeginSnapshot(claim)), clock);
      && (begun.reply.Begun? || begun.reply.Refused?)
      && (if begun.reply.Refused? then !Counted(begun.state, clock).phase.Snapshot?
          else
            && begun.state.activeGeneration == Some(begun.reply.generation)
            && Ready(begun.state, begun.reply.generation, claim, clock))
  {
    var begun := Step(c, OnGate(CallBeginSnapshot(claim)), clock);
    StepKeepsInv(c, OnGate(CallBeginSnapshot(claim)), clock);
    OutsideStartsFrom(c, clock);
    CapturesOrRefuses(StartsFrom(c, clock), claim, clock);
    if begun.reply.Refused? {
      CountingIsServed(begun.state, clock);
    } else {
      HeldIsReady(begun.state, begun.reply.generation, claim, clock);
    }
  }

  lemma CapturesOrRefuses(c: State, claim: string, clock: Clock)
    requires !c.phase.Snapshot? && c.active == map[] && c.failure.None? && c.erasureStartedAt.None?
    ensures
      var out := CaptureDirtyDays(c, claim, clock);
      && (out.reply.Begun? || (out.reply.Refused? && !out.state.phase.Snapshot?))
      && (out.reply.Begun? ==>
            && out.state.activeGeneration == Some(out.reply.generation)
            && Holding(out.state, out.reply.generation, claim, clock)
            && out.state.dirty == c.dirty && out.state.incomplete == c.incomplete && out.state.links == c.links
            && out.state.active == c.active)
  {}

  lemma DrainIsServed(c: State, clock: Clock)
    requires Inv(c) && InWindow(c, clock.oldest, clock.today) && c.erasureStartedAt.None?
    requires c.phase.Open? && c.failure.None? && |c.dirty| > |c.incomplete|
    ensures Step(c, OnGate(CallRequestSnapshot), clock) == Outcome(Closed(c, clock), IsDraining(|c.active|))
  {
    DayGraph.NonEmpty(c.dirty);
    var d :| d in c.dirty;
    assert Within(d, clock.oldest, clock.today);
    RequestDrains(c, clock);
  }

  /** After an error the generation has failed, or it can still be gone on with. */
  lemma ThrownIsFailedOrReady(c: State, c1: State, g: int, claim: string, clock: Clock, heard: Heard)
    requires Ready(c, g, claim, clock) && Hears(c, g, claim, clock, heard)
    requires Ending(c1, Thrown) == GenerationEnds(c, g, claim, clock, heard)
    ensures (c1.failure.Some? && c1.failure.value.generation == g) || Ready(c1, g, claim, clock)
  {
    if heard.acquired == Some(true) && Plannable(g, CountCaptured(c, g)) {
      if AllCopied(heard.at, g) {
        UnpublishedIsReady(heard.at, g, claim, clock);
      } else {
        ThrownTurn(heard.at, c1, g, claim, clock, CursorKey(heard.at, g).value, heard.said);
      }
    }
  }

  lemma UnpublishedIsReady(c: State, g: int, claim: string, clock: Clock)
    requires Ready(c, g, claim, clock) && AllCopied(c, g)
    ensures
      var ending := PublishEnds(c, g, claim, clock, false);
      Ready(ending.state, g, claim, clock) || ending.tried.Returned?
  {
    CheckIsAnswered(c, g, claim, clock, false);
    StampedIsReady(Checked(c, g, claim, clock, false).state, g, claim, clock);
  }

  lemma ThrownTurn(c: State, c1: State, g: int, claim: string, clock: Clock, key: CopyKey, said: Said)
    requires Ready(c, g, claim, clock) && CursorKey(c, g) == Some(key) && Turn(c, c1, g, claim, clock, key, said, Thrown)
    ensures (c1.failure.Some? && c1.failure.value.generation == g) || Ready(c1, g, claim, clock)
  {
    if key in c.intents {
      CheckIsAnswered(c, g, claim, clock, NeedsReceipt(c, key));
    }
  }
}
