/**
 * The agent delivery coordinator as a state machine on values: its tables, and one function for
 * each public call. A call either commits or leaves the tables as its last committed transaction
 * left them; `Refused` is a thrown error.
 */
module CoordinatorModel {
  import opened Contract
  import opened CopyPlan
  import DayGraph

  datatype Phase = Open | Draining | Snapshot

  datatype Reservation = Reservation(
    payload: string, sequence: nat, createdAt: int, expiresAt: int, days: set<Day>)

  datatype Progress = Progress(next: nat, claim: string, manifestAt: Option<int>)

  datatype Intent = Intent(startedAt: int, job: Option<string>)

  datatype BlockedReason = ReceiptNotRecovered | StatusBudgetExceeded

  datatype Check = Check(
    generation: int, copyIndex: nat, nextCheckAt: int, statusChecks: nat, recoveryChecks: nat,
    recoveryRequired: bool, blocked: Option<BlockedReason>)

  datatype Failure = Failure(generation: int, reason: string, failedAt: int)

  datatype State = State(
    lastSequence: nat,
    lastGeneration: nat,
    phase: Phase,
    activeGeneration: Option<int>,
    gateExpires: Option<int>,
    active: map<string, Reservation>,
    dirty: set<Day>,
    incomplete: set<Day>,
    links: set<Link>,
    captured: map<int, set<Day>>,
    progress: map<int, Progress>,
    intents: map<CopyKey, Intent>,
    check: Option<Check>,
    failure: Option<Failure>,
    erasureStartedAt: Option<int>)

  /** Revision 1 belongs to historical imports, so live deliveries start at 2. */
  const INITIAL := State(
    1, 0, Open, None, None, map[], {}, {}, {}, map[], map[], map[], None, None, None)

  const STATUS_CHECK_BUDGET := 15
  const RECOVERY_CHECK_BUDGET := 3
  const FIRST_CHECK_MS := 5_000
  const MAX_OUTSTANDING_INTENTS := 64

  datatype Fault =
    | EmptyDaySet | TooManyDays | DayOutsideRetention
    | LeaseMissing
    | UnknownDelivery | PayloadMismatch | DaysMismatch | RetentionMismatch
    | InvalidWindow | SequenceExhausted | DirtyDayLimit
    | DeliveryExpired | DeliveryNotExpired | NoWritePermit
    | NoLinks | TooManyLinks | LinkEndsEqual | LinkOutsideDelivery | LinkNodeLimit | LinkLimit
    | CompletedDaysMismatch | NotIncomplete
    | ErasureStarted | ErasureNotStarted
    | FailurePending | NoDirtyDays | NoCompleteDirtyDays | GenerationExhausted
    | NotActive | ClaimNotActive | ClaimOwnerMismatch
    | ProgressMissing | ProgressMismatch | CursorInvalid | CopiesIncomplete
    | CursorMismatch | CursorComplete | CopyKeyMismatch | CursorNotAdvanced
    | InvalidAttempt | InvalidTarget | IntentExists | IntentLimit | UnknownIntent
    | DifferentJob | JobMismatch | StartedCopy | OutstandingIntents
    | FailureCollision | StaleCheck | CheckMismatch | NotRecoverable | NoBlockedCheck | NotUnstarted

  datatype ProgressView = ProgressView(
    generation: int, days: set<Day>, next: nat, total: nat, claim: string, claimExpiresAt: int,
    manifestAt: Option<int>)

  datatype Reply =
    | Refused(fault: Fault)
    | Nothing
    | Done
    | Reserved(sequence: nat)
    | Existing(sequence: nat)
    | Permit(granted: bool)
    | DaysPlanned(days: set<Day>)
    | LinksAdded(count: nat)
    | Left(sequence: nat, days: set<Day>)
    | DaysResolved(count: nat)
    | IsDraining(activeDeliveries: nat)
    | Begun(generation: int, days: set<Day>)
    | Claimed(view: ProgressView)
    | IsActive(generation: int, expiresAt: int)
    | Finished(generation: int, cleared: nat)
    | Retained(generation: int, retained: nat)
    | CheckResult(ready: bool, check: Check)
    | Erasure(ready: bool, activeDeliveries: nat, incompleteDays: nat, outstandingIntents: nat)

  datatype Outcome = Outcome(state: State, reply: Reply)

  function Refuse(c: State, fault: Fault): Outcome {
    Outcome(c, Refused(fault))
  }

  // ---- shared storage helpers ----

  function CapturedDays(c: State): set<Day> {
    set g, d | g in c.captured && d in c.captured[g] :: d
  }

  function DeliveryDays(c: State): set<Day> {
    set id, d | id in c.active && d in c.active[id].days :: d
  }

  /** The days the capacity limit counts: dirty, or held by an active delivery. */
  function PendingDays(c: State): set<Day> {
    c.dirty + DeliveryDays(c)
  }

  function LinkNodes(links: set<Link>): set<Day> {
    (set l | l in links :: l.a) + (set l | l in links :: l.b)
  }

  function Prune(c: State, clock: Clock): State {
    c.(
      links := (set l | l in c.links && clock.Retains(l.a) && clock.Retains(l.b)),
      incomplete := (set d | d in c.incomplete && (clock.Retains(d) || d in CapturedDays(c))),
      dirty := (set d | d in c.dirty && (clock.Retains(d) || d in CapturedDays(c))))
  }

  function OpenGate(c: State): State {
    c.(phase := Open, activeGeneration := None, gateExpires := None)
  }

  /** A drain that outlived its lease reopens the gate; a snapshot never expires by itself. */
  function RecoverGate(c: State, now: int): Result<State, Fault> {
    if c.phase.Open? then Ok(c)
    else if c.gateExpires.None? then Err(LeaseMissing)
    else if c.phase.Snapshot? then Ok(c)
    else if now < c.gateExpires.value then Ok(c)
    else Ok(OpenGate(c.(captured := map[])))
  }

  function RecoverAndPrune(c: State, clock: Clock): Result<State, Fault> {
    match RecoverGate(c, clock.now)
    case Err(e) => Err(e)
    case Ok(c1) => Ok(Prune(c1, clock))
  }

  function RequireReservation(c: State, id: string, payload: string): Result<Reservation, Fault> {
    if id !in c.active then Err(UnknownDelivery)
    else if c.active[id].payload != payload then Err(PayloadMismatch)
    else Ok(c.active[id])
  }

  /** The delivery with the smallest sequence number holds the write permit. */
  predicate HoldsPermit(c: State, id: string) {
    id in c.active && forall other :: other in c.active ==> c.active[id].sequence <= c.active[other].sequence
  }

  // ---- deliveries ----

  datatype ReserveInput = ReserveInput(id: string, payload: string, days: seq<Day>, createdAt: int, expiresAt: int)

  function DaySetOf(days: seq<Day>): set<Day> {
    set d | d in days
  }

  function WindowFault(input: ReserveInput, clock: Clock): Option<Fault> {
    if input.createdAt > clock.now || input.expiresAt <= clock.now
       || input.expiresAt <= input.createdAt
       || input.expiresAt - input.createdAt > MAX_DELIVERY_RETENTION_MS then Some(InvalidWindow)
    else if exists d :: d in DaySetOf(input.days) && !clock.Retains(d) then Some(DayOutsideRetention)
    else None
  }

  function MatchFault(existing: Reservation, input: ReserveInput): Option<Fault> {
    if existing.payload != input.payload then Some(PayloadMismatch)
    else if existing.days != DaySetOf(input.days) then Some(DaysMismatch)
    else if existing.createdAt != input.createdAt || existing.expiresAt != input.expiresAt then Some(RetentionMismatch)
    else None
  }

  function InsertReservation(c: State, input: ReserveInput): State {
    var sequence := c.lastSequence + 1;
    c.(active := c.active[input.id :=
         Reservation(input.payload, sequence, input.createdAt, input.expiresAt, DaySetOf(input.days))],
       lastSequence := sequence)
  }

  function ReserveNew(c: State, input: ReserveInput, clock: Clock): Outcome {
    var fault := WindowFault(input, clock);
    if c.erasureStartedAt.Some? then Refuse(c, ErasureStarted)
    else if fault.Some? then Refuse(c, fault.value)
    else if !c.phase.Open? || |c.active| >= MAX_ACTIVE_DELIVERIES then Outcome(c, Nothing)
    else if c.lastSequence >= MAX_SAFE_INTEGER then Refuse(c, SequenceExhausted)
    else
      var c1 := InsertReservation(c, input);
      if |PendingDays(c1)| > MAX_DIRTY_DAYS then Refuse(c, DirtyDayLimit)
      else Outcome(c1, Reserved(c1.lastSequence))
  }

  function ReserveOn(c: State, input: ReserveInput, clock: Clock): Outcome {
    if input.id !in c.active then ReserveNew(c, input, clock)
    else
      var existing := c.active[input.id];
      var fault := MatchFault(existing, input);
      if fault.Some? then Refuse(c, fault.value) else Outcome(c, Existing(existing.sequence))
  }

  function Reserve(c: State, input: ReserveInput, clock: Clock): Outcome {
    if |input.days| > MAX_DIRTY_DAYS then Refuse(c, TooManyDays)
    else if input.days == [] then Refuse(c, EmptyDaySet)
    else
      match RecoverAndPrune(c, clock)
      case Err(e) => Refuse(c, e)
      case Ok(c1) => ReserveOn(c1, input, clock)
  }

  function AcquireWrite(c: State, id: string, payload: string, clock: Clock): Outcome {
    match RequireReservation(c, id, payload)
    case Err(e) => Refuse(c, e)
    case Ok(reservation) =>
      if clock.now >= reservation.expiresAt then Refuse(c, DeliveryExpired)
      else Outcome(c, Permit(HoldsPermit(c, id)))
  }

  function PermitFault(c: State, id: string, payload: string, clock: Clock): Option<Fault> {
    match RequireReservation(c, id, payload)
    case Err(e) => Some(e)
    case Ok(reservation) =>
      if clock.now >= reservation.expiresAt then Some(DeliveryExpired)
      else if !HoldsPermit(c, id) then Some(NoWritePermit)
      else None
  }

  function ReplaceDirtyDays(c: State, id: string, payload: string, days: seq<Day>, clock: Clock): Outcome {
    if |days| > MAX_DIRTY_DAYS then Refuse(c, TooManyDays)
    else if exists d :: d in DaySetOf(days) && !clock.Retains(d) then Refuse(c, DayOutsideRetention)
    else
      var fault := PermitFault(c, id, payload, clock);
      if fault.Some? then Refuse(c, fault.value)
      else
        var c1 := c.(active := c.active[id := c.active[id].(days := DaySetOf(days))]);
        if |PendingDays(c1)| > MAX_DIRTY_DAYS then Refuse(c, DirtyDayLimit)
        else Outcome(c1, DaysPlanned(DaySetOf(days)))
  }

  datatype Move = Move(oldDay: Day, newDay: Day)

  function LinkOf(move: Move): Link {
    if move.oldDay < move.newDay then Link(move.oldDay, move.newDay) else Link(move.newDay, move.oldDay)
  }

  function LinksOf(moves: seq<Move>): set<Link> {
    set m | m in moves :: LinkOf(m)
  }

  function MovesFault(moves: seq<Move>, clock: Clock): Option<Fault> {
    if moves == [] then Some(NoLinks)
    else if |moves| > MAX_LINKS then Some(TooManyLinks)
    else if exists m :: m in moves && m.oldDay == m.newDay then Some(LinkEndsEqual)
    else if exists m :: m in moves && !(clock.Retains(m.oldDay) && clock.Retains(m.newDay)) then Some(DayOutsideRetention)
    else None
  }

  function LinkDirtyDays(c: State, id: string, payload: string, moves: seq<Move>, clock: Clock): Outcome {
    var movesFault := MovesFault(moves, clock);
    if movesFault.Some? then Refuse(c, movesFault.value)
    else
      var fault := PermitFault(c, id, payload, clock);
      if fault.Some? then Refuse(c, fault.value)
      else if !(LinkNodes(LinksOf(moves)) <= c.active[id].days) then Refuse(c, LinkOutsideDelivery)
      else
        var c1 := c.(links := c.links + LinksOf(moves));
        if |LinkNodes(c1.links)| > MAX_LINK_NODES then Refuse(c, LinkNodeLimit)
        else if |c1.links| > MAX_LINKS then Refuse(c, LinkLimit)
        else Outcome(c1, LinksAdded(|LinksOf(moves)|))
  }

  /** Two transactions in a row: the new days stay even when a link is then refused. */
  function PlanWrite(c: State, id: string, payload: string, days: seq<Day>, moves: seq<Move>, clock: Clock): Outcome {
    var planned := ReplaceDirtyDays(c, id, payload, days, clock);
    if planned.reply.Refused? || moves == [] then planned
    else
      var linked := LinkDirtyDays(planned.state, id, payload, moves, clock);
      if linked.reply.Refused? then linked else Outcome(linked.state, planned.reply)
  }

  function Complete(c: State, id: string, payload: string, clock: Clock): Outcome {
    match RequireReservation(c, id, payload)
    case Err(e) => Refuse(c, e)
    case Ok(reservation) =>
      Outcome(
        Prune(c.(dirty := c.dirty + reservation.days, active := c.active - {id}), clock),
        Left(reservation.sequence, reservation.days))
  }

  /** Completes when the reservation is still there, then compares with the receipt's plan. */
  function FinishDelivery(
    c: State, id: string, payload: string, hasReservation: bool, planned: set<Day>, clock: Clock): Outcome
  {
    if !hasReservation then Outcome(c, Done)
    else
      var completed := Complete(c, id, payload, clock);
      if completed.reply.Left? && completed.reply.days != planned then
        Refuse(completed.state, CompletedDaysMismatch)
      else completed
  }

  function Expire(c: State, id: string, payload: string, clock: Clock): Outcome {
    match RequireReservation(c, id, payload)
    case Err(e) => Refuse(c, e)
    case Ok(reservation) =>
      if clock.now < reservation.expiresAt then Refuse(c, DeliveryNotExpired)
      else
        Outcome(
          Prune(c.(dirty := c.dirty + reservation.days, incomplete := c.incomplete + reservation.days, active := c.active - {id}), clock),
          Left(reservation.sequence, reservation.days))
  }

  function ResolveIncompleteDays(c: State, days: seq<Day>): Outcome {
    if |days| > MAX_DIRTY_DAYS then Refuse(c, TooManyDays)
    else if days == [] then Refuse(c, EmptyDaySet)
    else if !(DaySetOf(days) <= c.incomplete) then Refuse(c, NotIncomplete)
    else Outcome(c.(incomplete := c.incomplete - DaySetOf(days)), DaysResolved(|DaySetOf(days)|))
  }

  // ---- the snapshot gate ----

  function RequestSnapshot(c: State, clock: Clock): Outcome {
    if c.erasureStartedAt.Some? then Refuse(c, ErasureStarted)
    else if c.failure.Some? then Refuse(c, FailurePending)
    else
      match RecoverAndPrune(c, clock)
      case Err(e) => Refuse(c, e)
      case Ok(c1) =>
        if c1.phase.Snapshot? then Outcome(c1, Nothing)
        else if c1.dirty == {} then Refuse(c1, NoDirtyDays)
        else
          var c2 := if c1.phase.Open?
            then c1.(phase := Draining, gateExpires := Some(clock.now + SNAPSHOT_LEASE_MS)) else c1;
          Outcome(c2, IsDraining(|c1.active|))
  }

  /** The transaction that captures, once an expired drain is recovered and old days are pruned. */
  ghost function CaptureDirtyDays(c: State, claim: string, clock: Clock): Outcome {
    if c.phase.Snapshot? || c.active != map[] then Outcome(c, Nothing)
    else
      var days := DayGraph.Select(c.dirty, c.incomplete, c.links);
      if days == {} then Refuse(OpenGate(c), NoCompleteDirtyDays)
      else if c.lastGeneration >= MAX_SAFE_INTEGER then Refuse(c, GenerationExhausted)
      else
        var generation := c.lastGeneration + 1;
        Outcome(
          c.(captured := c.captured[generation := days],
             lastGeneration := generation, phase := Snapshot, activeGeneration := Some(generation),
             gateExpires := Some(clock.now + SNAPSHOT_LEASE_MS),
             progress := c.progress[generation := Progress(0, claim, None)]),
          Begun(generation, days))
  }

  ghost function BeginSnapshot(c: State, claim: string, clock: Clock): Outcome {
    if c.erasureStartedAt.Some? then Refuse(c, ErasureStarted)
    else if c.failure.Some? then Refuse(c, FailurePending)
    else
      match RecoverAndPrune(c, clock)
      case Err(e) => Refuse(c, e)
      case Ok(c1) => CaptureDirtyDays(c1, claim, clock)
  }

  function CountCaptured(c: State, generation: int): nat {
    if generation in c.captured then |c.captured[generation]| else 0
  }

  function ReadProgress(c: State, generation: int): Result<ProgressView, Fault> {
    if generation !in c.progress then Err(ProgressMissing)
    else if c.activeGeneration != Some(generation) || c.gateExpires.None? then Err(ProgressMismatch)
    else
      var row := c.progress[generation];
      var total := CopyCount(CountCaptured(c, generation));
      if row.next > total then Err(CursorInvalid)
      else Ok(ProgressView(
        generation, if generation in c.captured then c.captured[generation] else {},
        row.next, total, row.claim, c.gateExpires.value, row.manifestAt))
  }

  function AssertClaim(c: State, generation: int, claim: string, clock: Clock): Result<ProgressView, Fault> {
    if !c.phase.Snapshot? || c.activeGeneration != Some(generation)
       || c.gateExpires.None? || clock.now >= c.gateExpires.value then Err(ClaimNotActive)
    else
      match ReadProgress(c, generation)
      case Err(e) => Err(e)
      case Ok(view) => if view.claim != claim then Err(ClaimOwnerMismatch) else Ok(view)
  }

  function ClaimSnapshot(c: State, claim: string, clock: Clock): Outcome {
    if c.erasureStartedAt.Some? then Refuse(c, ErasureStarted)
    else if !c.phase.Snapshot? || c.activeGeneration.None? then Refuse(c, NotActive)
    else
      var generation := c.activeGeneration.value;
      match ReadProgress(c, generation)
      case Err(e) => Refuse(c, e)
      case Ok(view) =>
        if view.claim != claim && clock.now < view.claimExpiresAt then Outcome(c, Nothing)
        else
          var c1 := c.(progress := c.progress[generation := c.progress[generation].(claim := claim)],
                       gateExpires := Some(clock.now + SNAPSHOT_LEASE_MS));
          match ReadProgress(c1, generation)
          case Err(e) => Refuse(c, e)
          case Ok(claimed) => Outcome(c1, Claimed(claimed))
  }

  function GetProgress(c: State, generation: int, claim: string, clock: Clock): Outcome {
    match AssertClaim(c, generation, claim, clock)
    case Err(e) => Refuse(c, e)
    case Ok(view) => Outcome(c, Claimed(view))
  }

  /** Renewing and releasing differ in the new end of the lease. */
  function SetLease(c: State, generation: int, claim: string, clock: Clock, expires: int): Outcome {
    match AssertClaim(c, generation, claim, clock)
    case Err(e) => Refuse(c, e)
    case Ok(_) =>
      var c1 := c.(gateExpires := Some(expires));
      match ReadProgress(c1, generation)
      case Err(e) => Refuse(c, e)
      case Ok(view) => Outcome(c1, Claimed(view))
  }

  function RenewClaim(c: State, generation: int, claim: string, clock: Clock): Outcome {
    if c.erasureStartedAt.Some? then Refuse(c, ErasureStarted)
    else SetLease(c, generation, claim, clock, clock.now + SNAPSHOT_LEASE_MS)
  }

  function ReleaseClaim(c: State, generation: int, claim: string, clock: Clock): Outcome {
    SetLease(c, generation, claim, clock, clock.now)
  }

  function ActiveFault(c: State, generation: int, clock: Clock): Option<Fault> {
    if !c.phase.Snapshot? || c.activeGeneration != Some(generation) || c.gateExpires.None? then Some(NotActive)
    else if exists d :: d in CapturedDays(c) && !clock.Retains(d) then Some(DayOutsideRetention)
    else None
  }

  function AssertSnapshotActive(c: State, generation: int, claim: string, clock: Clock): Outcome {
    if c.erasureStartedAt.Some? then Refuse(c, ErasureStarted)
    else
      match AssertClaim(c, generation, claim, clock)
      case Err(e) => Refuse(c, e)
      case Ok(_) =>
        var fault := ActiveFault(c, generation, clock);
        if fault.Some? then Refuse(c, fault.value)
        else Outcome(c, IsActive(generation, c.gateExpires.value))
  }

  function PrepareManifest(c: State, generation: int, claim: string, clock: Clock): Outcome {
    if c.erasureStartedAt.Some? then Refuse(c, ErasureStarted)
    else
      match RecoverGate(c, clock.now)
      case Err(e) => Refuse(c, e)
      case Ok(c1) =>
        var fault := ActiveFault(c1, generation, clock);
        if fault.Some? then Refuse(c1, fault.value)
        else
          match AssertClaim(c1, generation, claim, clock)
          case Err(e) => Refuse(c1, e)
          case Ok(view) =>
            if view.next != view.total then Refuse(c1, CopiesIncomplete)
            else
              var row := c1.progress[generation];
              var at := if row.manifestAt.None? then Some(clock.now) else row.manifestAt;
              Outcome(
                c1.(progress := c1.progress[generation := row.(manifestAt := at)]),
                Claimed(view.(manifestAt := at)))
  }

  function RemoveCapture(c: State, generation: int, clock: Clock): State {
    Prune(OpenGate(c.(captured := c.captured - {generation}, progress := c.progress - {generation})), clock)
  }

  /** Publishing clears the captured days and the links inside the capture. */
  function FinishCapture(c: State, generation: int, clock: Clock): State {
    var days := if generation in c.captured then c.captured[generation] else {};
    RemoveCapture(
      c.(links := (set l | l in c.links && !(l.a in days && l.b in days)), dirty := c.dirty - days),
      generation, clock)
  }

  /** Failing drops the capture and keeps every dirty mark. */
  function FailCapture(c: State, generation: int, clock: Clock): Outcome {
    match RecoverGate(c, clock.now)
    case Err(e) => Refuse(c, e)
    case Ok(c1) =>
      if !c1.phase.Snapshot? || c1.activeGeneration != Some(generation) then Refuse(c1, NotActive)
      else Outcome(RemoveCapture(c1, generation, clock), Retained(generation, CountCaptured(c1, generation)))
  }

  function FinishSnapshot(c: State, generation: int, claim: string, clock: Clock): Outcome {
    match AssertClaim(c, generation, claim, clock)
    case Err(e) => Refuse(c, e)
    case Ok(view) =>
      var fault := ActiveFault(c, generation, clock);
      if fault.Some? then Refuse(c, fault.value)
      else if view.next != view.total then Refuse(c, CopiesIncomplete)
      else if c.intents != map[] then Refuse(c, OutstandingIntents)
      else
        Outcome(
          FinishCapture(c, generation, clock).(check := None),
          Finished(generation, CountCaptured(c, generation)))
  }

  /** Records a failure; a second record would break the table's single row. */
  function RecordFailure(c: State, before: State, generation: int, reason: string, clock: Clock, reply: Reply): Outcome {
    if c.failure.Some? then Refuse(before, FailureCollision)
    else Outcome(c.(failure := Some(Failure(generation, reason, clock.now))), reply)
  }

  function FailSnapshot(c: State, generation: int, claim: string, reason: Option<string>, clock: Clock): Outcome {
    match AssertClaim(c, generation, claim, clock)
    case Err(e) => Refuse(c, e)
    case Ok(_) =>
      if c.intents != map[] then Refuse(c, OutstandingIntents)
      else
        var failed := FailCapture(c, generation, clock);
        if failed.reply.Refused? then Refuse(c, failed.reply.fault)
        else
          var c1 := failed.state.(check := None);
          if reason.None? then Outcome(c1, failed.reply)
          else RecordFailure(c1, c, generation, reason.value, clock, failed.reply)
  }

  // ---- Copy intents ----

  function CursorFault(c: State, key: CopyKey, claim: string, copyIndex: int, clock: Clock): Option<Fault> {
    match AssertClaim(c, key.generation, claim, clock)
    case Err(e) => Some(e)
    case Ok(view) =>
      if view.next != copyIndex then Some(CursorMismatch)
      else
        match KeyAt(key.generation, CountCaptured(c, key.generation), copyIndex)
        case None => Some(CursorComplete)
        case Some(expected) => if expected != key then Some(CopyKeyMismatch) else None
  }

  function KeyFault(key: CopyKey): Option<Fault> {
    if !IsCopyAttempt(key.generation, key.copyAttempt) then Some(InvalidAttempt)
    else if key.target >= TARGET_COUNT then Some(InvalidTarget)
    else None
  }

  function RecordIntent(c: State, key: CopyKey, claim: string, copyIndex: int, startedAt: int, clock: Clock): Outcome {
    if c.erasureStartedAt.Some? then Refuse(c, ErasureStarted)
    else
      var cursorFault := CursorFault(c, key, claim, copyIndex, clock);
      if cursorFault.Some? then Refuse(c, cursorFault.value)
      else
        var keyFault := KeyFault(key);
        if keyFault.Some? then Refuse(c, keyFault.value)
        else if key in c.intents then Refuse(c, IntentExists)
        else if |c.intents| >= MAX_OUTSTANDING_INTENTS then Refuse(c, IntentLimit)
        else
          Outcome(
            c.(intents := c.intents[key := Intent(startedAt, None)],
               check := Some(Check(key.generation, copyIndex, clock.now + FIRST_CHECK_MS, 0, 0, false, None))),
            Done)
  }

  function AttachJobTo(c: State, key: CopyKey, job: string): Outcome {
    var keyFault := KeyFault(key);
    if keyFault.Some? then Refuse(c, keyFault.value)
    else if key !in c.intents then Refuse(c, UnknownIntent)
    else if c.intents[key].job.Some? && c.intents[key].job != Some(job) then Refuse(c, DifferentJob)
    else Outcome(c.(intents := c.intents[key := c.intents[key].(job := Some(job))]), Done)
  }

  function AttachJob(c: State, key: CopyKey, claim: string, copyIndex: int, job: string, clock: Clock): Outcome {
    var cursorFault := CursorFault(c, key, claim, copyIndex, clock);
    if cursorFault.Some? then Refuse(c, cursorFault.value)
    else
      var attached := AttachJobTo(c, key, job);
      if attached.reply.Refused? || attached.state.check.None? then attached
      else Outcome(attached.state.(check := Some(attached.state.check.value.(recoveryRequired := false))), Done)
  }

  function RemoveIntent(c: State, key: CopyKey, job: Option<string>, mismatch: Fault): Outcome {
    var keyFault := KeyFault(key);
    if keyFault.Some? then Refuse(c, keyFault.value)
    else if key !in c.intents then Refuse(c, UnknownIntent)
    else if c.intents[key].job != job then Refuse(c, mismatch)
    else Outcome(c.(intents := c.intents - {key}), Done)
  }

  function FailWith(removed: State, before: State, generation: int, reason: string, clock: Clock): Outcome {
    var failed := FailCapture(removed, generation, clock);
    if failed.reply.Refused? then Refuse(before, failed.reply.fault)
    else RecordFailure(failed.state.(check := None), before, generation, reason, clock, Done)
  }

  /** A finished Copy advances the cursor; a failed one ends the generation and keeps its days dirty. */
  function SettleIntent(
    c: State, key: CopyKey, claim: string, copyIndex: int, job: string, succeeded: bool, clock: Clock): Outcome
  {
    var cursorFault := CursorFault(c, key, claim, copyIndex, clock);
    if cursorFault.Some? then Refuse(c, cursorFault.value)
    else
      var removed := RemoveIntent(c, key, Some(job), JobMismatch);
      if removed.reply.Refused? then removed
      else if succeeded then
        if key.generation !in c.progress || c.progress[key.generation].next != copyIndex || copyIndex < 0 then Refuse(c, CursorNotAdvanced)
        else
          var row := c.progress[key.generation].(next := copyIndex + 1);
          Outcome(removed.state.(progress := c.progress[key.generation := row], check := None), Done)
      else FailWith(removed.state, c, key.generation, "Snapshot Copy job " + job + " failed", clock)
  }

  function RejectIntent(
    c: State, key: CopyKey, claim: string, copyIndex: int, reason: string, clock: Clock): Outcome
  {
    var cursorFault := CursorFault(c, key, claim, copyIndex, clock);
    if cursorFault.Some? then Refuse(c, cursorFault.value)
    else
      var removed := RemoveIntent(c, key, None, StartedCopy);
      if removed.reply.Refused? then removed
      else FailWith(removed.state, c, key.generation, reason, clock)
  }

  // ---- checks and operator recovery ----

  function Pow2(n: nat): nat {
    if n == 0 then 1 else 2 * Pow2(n - 1)
  }

  function CheckDelay(recovery: bool, attempts: nat): int {
    if recovery then (if 60_000 * Pow2(attempts) < 300_000 then 60_000 * Pow2(attempts) else 300_000)
    else if attempts == 0 then 10_000
    else if 30_000 * Pow2(attempts - 1) < 60_000 then 30_000 * Pow2(attempts - 1) else 60_000
  }

  function PrepareCheck(
    c: State, generation: int, claim: string, copyIndex: nat, recovery: bool, clock: Clock): Outcome
  {
    match AssertClaim(c, generation, claim, clock)
    case Err(e) => Refuse(c, e)
    case Ok(view) =>
      if view.next != copyIndex then Refuse(c, StaleCheck)
      else
        var check := if c.check.Some? then c.check.value
          else Check(generation, copyIndex, clock.now, 0, 0, false, None);
        if check.generation != generation || check.copyIndex != copyIndex then Refuse(c, CheckMismatch)
        else if check.blocked.Some? || check.nextCheckAt > clock.now then
          Outcome(c.(check := Some(check)), CheckResult(false, check))
        else
          var attempts := if recovery then check.recoveryChecks else check.statusChecks;
          if attempts >= (if recovery then RECOVERY_CHECK_BUDGET else STATUS_CHECK_BUDGET) then
            var blocked := check.(blocked := Some(if recovery then ReceiptNotRecovered else StatusBudgetExceeded));
            Outcome(c.(check := Some(blocked)), CheckResult(false, blocked))
          else
            var counted := if recovery
              then check.(recoveryChecks := check.recoveryChecks + 1, recoveryRequired := true)
              else check.(statusChecks := check.statusChecks + 1, recoveryRequired := false);
            var next := counted.(nextCheckAt := clock.now + CheckDelay(recovery, attempts));
            Outcome(c.(check := Some(next)), CheckResult(true, next))
  }

  function RequireRecovery(c: State, generation: int, claim: string, clock: Clock): Outcome {
    match AssertClaim(c, generation, claim, clock)
    case Err(e) => Refuse(c, e)
    case Ok(_) =>
      Outcome(if c.check.None? then c else c.(check := Some(c.check.value.(recoveryRequired := true))), Done)
  }

  /** The operator's proof that the one outstanding Copy never started retires its generation. */
  function AbandonUnstarted(
    c: State, generation: int, reason: string, key: CopyKey, startedAt: int, clock: Clock): Outcome
  {
    if c.erasureStartedAt.Some? then Refuse(c, ErasureStarted)
    else if c.failure.Some? || !c.phase.Snapshot? || c.activeGeneration != Some(generation)
            || c.gateExpires.None? || c.gateExpires.value > clock.now
            || c.check.None? || c.check.value.generation != generation
            || c.check.value.blocked != Some(ReceiptNotRecovered)
            || c.intents != map[key := Intent(startedAt, None)]
            || key.generation != generation then Refuse(c, NotUnstarted)
    else
      var removed := RemoveIntent(c, key, None, StartedCopy);
      if removed.reply.Refused? then removed
      else FailWith(removed.state, c, generation, reason, clock)
  }

  function Resume(c: State, generation: int, clock: Clock): Outcome {
    if c.erasureStartedAt.Some? then Refuse(c, ErasureStarted)
    else if c.failure.Some? then
      if c.failure.value.generation != generation then Refuse(c, NotRecoverable)
      else Outcome(c.(failure := None), Done)
    else if c.activeGeneration != Some(generation) || c.gateExpires.None? || c.gateExpires.value > clock.now then
      Refuse(c, NotRecoverable)
    else if c.check.None? || c.check.value.generation != generation || c.check.value.blocked.None? then
      Refuse(c, NoBlockedCheck)
    else
      var check := c.check.value.(statusChecks := 0, recoveryChecks := 0, blocked := None, nextCheckAt := clock.now);
      Outcome(c.(check := Some(check)), Done)
  }

  // ---- erasure ----

  predicate ErasureReady(c: State) {
    c.active == map[] && c.activeGeneration.None? && c.intents == map[]
  }

  function SettleErasureState(c: State): Outcome
    requires c.erasureStartedAt.Some?
  {
    if ErasureReady(c) then
      Outcome(
        OpenGate(c.(links := {}, dirty := {}, incomplete := {}, captured := map[], progress := map[])),
        Erasure(true, 0, 0, 0))
    else
      Outcome(c, Erasure(false, |c.active|, |c.incomplete|, |c.intents|))
  }

  function BeginErasure(c: State, clock: Clock): Outcome {
    match RecoverAndPrune(c, clock)
    case Err(e) => Refuse(c, e)
    case Ok(c1) =>
      SettleErasureState(if c1.erasureStartedAt.Some? then c1 else c1.(erasureStartedAt := Some(clock.now)))
  }

  function GetErasureState(c: State, clock: Clock): Outcome {
    match RecoverAndPrune(c, clock)
    case Err(e) => Refuse(c, e)
    case Ok(c1) => if c1.erasureStartedAt.None? then Outcome(c1, Nothing) else SettleErasureState(c1)
  }

  function AttachErasureJob(c: State, key: CopyKey, job: string): Outcome {
    if c.erasureStartedAt.None? then Refuse(c, ErasureNotStarted) else AttachJobTo(c, key, job)
  }

  function SettleErasureIntent(c: State, key: CopyKey, job: string): Outcome {
    if c.erasureStartedAt.None? then Refuse(c, ErasureNotStarted) else RemoveIntent(c, key, Some(job), JobMismatch)
  }

  function AbandonErasureSnapshot(c: State, generation: int, clock: Clock): Outcome {
    if c.erasureStartedAt.None? then Refuse(c, ErasureNotStarted)
    else if c.intents != map[] then Refuse(c, OutstandingIntents)
    else
      var failed := FailCapture(c, generation, clock);
      if failed.reply.Refused? then Refuse(c, failed.reply.fault)
      else Outcome(failed.state.(check := None), failed.reply)
  }

  /** Reading the counters also recovers an expired drain and prunes. */
  function GetStats(c: State, clock: Clock): Outcome {
    match RecoverAndPrune(c, clock)
    case Err(e) => Refuse(c, e)
    case Ok(c1) => Outcome(c1, Done)
  }

  // ---- one public call ----

  datatype DeliveryCall =
    | CallReserve(input: ReserveInput)
    | CallAcquireWrite(id: string, payload: string)
    | CallPlanWrite(id: string, payload: string, days: seq<Day>, moves: seq<Move>)
    | CallLinkDirtyDays(id: string, payload: string, moves: seq<Move>)
    | CallFinishDelivery(id: string, payload: string, hasReservation: bool, planned: set<Day>)
    | CallExpire(id: string, payload: string)
    | CallResolveIncompleteDays(days: seq<Day>)

  datatype GateCall =
    | CallRequestSnapshot
    | CallBeginSnapshot(claim: string)
    | CallPrepareManifest(generation: int, claim: string)
    | CallFinishSnapshot(generation: int, claim: string)
    | CallFailSnapshot(generation: int, claim: string, reason: Option<string>)
    | CallGetStats

  datatype LeaseCall =
    | CallClaimSnapshot(claim: string)
    | CallGetProgress(generation: int, claim: string)
    | CallRenewClaim(generation: int, claim: string)
    | CallReleaseClaim(generation: int, claim: string)
    | CallAssertActive(generation: int, claim: string)

  datatype CopyCall =
    | CallRecordIntent(key: CopyKey, claim: string, copyIndex: int, startedAt: int)
    | CallAttachJob(key: CopyKey, claim: string, copyIndex: int, job: string)
    | CallSettleIntent(key: CopyKey, claim: string, copyIndex: int, job: string, succeeded: bool)
    | CallRejectIntent(key: CopyKey, claim: string, copyIndex: int, reason: string)

  datatype RecoveryCall =
    | CallPrepareCheck(generation: int, claim: string, copyIndex: nat, recovery: bool)
    | CallRequireRecovery(generation: int, claim: string)
    | CallAbandonUnstarted(generation: int, reason: string, key: CopyKey, startedAt: int)
    | CallResume(generation: int)

  datatype ErasureCall =
    | CallBeginErasure
    | CallGetErasureState
    | CallAttachErasureJob(key: CopyKey, job: string)
    | CallSettleErasureIntent(key: CopyKey, job: string)
    | CallAbandonErasureSnapshot(generation: int)

  datatype Call =
    | OnDelivery(delivery: DeliveryCall)
    | OnGate(gate: GateCall)
    | OnLease(lease: LeaseCall)
    | OnCopy(copy: CopyCall)
    | OnRecovery(recovery: RecoveryCall)
    | OnErasure(erasure: ErasureCall)

  function DeliveryStep(c: State, call: DeliveryCall, clock: Clock): Outcome {
    match call
    case CallReserve(input) => Reserve(c, input, clock)
    case CallAcquireWrite(id, payload) => AcquireWrite(c, id, payload, clock)
    case CallPlanWrite(id, payload, days, moves) => PlanWrite(c, id, payload, days, moves, clock)
    case CallLinkDirtyDays(id, payload, moves) => LinkDirtyDays(c, id, payload, moves, clock)
    case CallFinishDelivery(id, payload, has, planned) => FinishDelivery(c, id, payload, has, planned, clock)
    case CallExpire(id, payload) => Expire(c, id, payload, clock)
    case CallResolveIncompleteDays(days) => ResolveIncompleteDays(c, days)
  }

  ghost function GateStep(c: State, call: GateCall, clock: Clock): Outcome {
    match call
    case CallRequestSnapshot => RequestSnapshot(c, clock)
    case CallBeginSnapshot(claim) => BeginSnapshot(c, claim, clock)
    case CallPrepareManifest(g, claim) => PrepareManifest(c, g, claim, clock)
    case CallFinishSnapshot(g, claim) => FinishSnapshot(c, g, claim, clock)
    case CallFailSnapshot(g, claim, reason) => FailSnapshot(c, g, claim, reason, clock)
    case CallGetStats => GetStats(c, clock)
  }

  function LeaseStep(c: State, call: LeaseCall, clock: Clock): Outcome {
    match call
    case CallClaimSnapshot(claim) => ClaimSnapshot(c, claim, clock)
    case CallGetProgress(g, claim) => GetProgress(c, g, claim, clock)
    case CallRenewClaim(g, claim) => RenewClaim(c, g, claim, clock)
    case CallReleaseClaim(g, claim) => ReleaseClaim(c, g, claim, clock)
    case CallAssertActive(g, claim) => AssertSnapshotActive(c, g, claim, clock)
  }

  function CopyStep(c: State, call: CopyCall, clock: Clock): Outcome {
    match call
    case CallRecordIntent(key, claim, i, startedAt) => RecordIntent(c, key, claim, i, startedAt, clock)
    case CallAttachJob(key, claim, i, job) => AttachJob(c, key, claim, i, job, clock)
    case CallSettleIntent(key, claim, i, job, ok) => SettleIntent(c, key, claim, i, job, ok, clock)
    case CallRejectIntent(key, claim, i, reason) => RejectIntent(c, key, claim, i, reason, clock)
  }

  function RecoveryStep(c: State, call: RecoveryCall, clock: Clock): Outcome {
    match call
    case CallPrepareCheck(g, claim, i, recovery) => PrepareCheck(c, g, claim, i, recovery, clock)
    case CallRequireRecovery(g, claim) => RequireRecovery(c, g, claim, clock)
    case CallAbandonUnstarted(g, reason, key, startedAt) => AbandonUnstarted(c, g, reason, key, startedAt, clock)
    case CallResume(g) => Resume(c, g, clock)
  }

  function ErasureStep(c: State, call: ErasureCall, clock: Clock): Outcome {
    match call
    case CallBeginErasure => BeginErasure(c, clock)
    case CallGetErasureState => GetErasureState(c, clock)
    case CallAttachErasureJob(key, job) => AttachErasureJob(c, key, job)
    case CallSettleErasureIntent(key, job) => SettleErasureIntent(c, key, job)
    case CallAbandonErasureSnapshot(g) => AbandonErasureSnapshot(c, g, clock)
  }

  ghost function Step(c: State, call: Call, clock: Clock): Outcome {
    match call
    case OnDelivery(delivery) => DeliveryStep(c, delivery, clock)
    case OnGate(gate) => GateStep(c, gate, clock)
    case OnLease(lease) => LeaseStep(c, lease, clock)
    case OnCopy(copy) => CopyStep(c, copy, clock)
    case OnRecovery(recovery) => RecoveryStep(c, recovery, clock)
    case OnErasure(erasure) => ErasureStep(c, erasure, clock)
  }
}
