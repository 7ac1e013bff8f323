/**
 * The snapshot runner: it admits itself to a generation, drives one Copy after the other under a
 * claim, publishes the manifest and finishes. Everything it asks for may fail, take effect without
 * an answer, or come after another runner took over. Verifying its methods discharges what the
 * publication argument assumes of it: each call it makes is one that the world allows, and each Copy
 * it starts is one whose intent it recorded, for exactly the days that the coordinator expects.
 */
module SnapshotRunnerObject {
  import opened Contract
  import opened CopyPlan
  import opened CoordinatorModel
  import opened CoordinatorInvariants
  import opened CoordinatorRuns
  import opened CoordinatorObject
  import opened CoordinatorReplies
  import opened DirtyGraphSelection
  import opened Publication
  import opened PublicationInvariants
  import opened PublicationRuns
  import opened GlobalCapacity
  import opened SnapshotClaims
  import opened SnapshotRounds
  import opened SnapshotTurns
  import DayGraph

  datatype IntentRead = NoIntent | Outstanding(intent: Intent) | Conflicting | Unread

  /** A Copy that was submitted: its key and the days it copies. */
  datatype Started = Started(key: CopyKey, days: set<Day>)

  datatype Schedule = Schedule(failure: Option<Failure>, check: Option<Check>, asleep: bool)

  /** The runner's plan: the captured days of a generation, cut into Copies. */
  datatype Plan = Plan(g: int, days: set<Day>, copies: seq<CopyPlan>)

  ghost predicate IsPlan(p: Plan) {
    Plannable(p.g, |p.days|) && ArePlans(p.g, Ordered(p.days), p.copies)
  }

  function CopyOf(p: Plan, i: nat): CopyPlan {
    if i / TARGET_COUNT < |p.copies| then p.copies[i / TARGET_COUNT] else CopyPlan(p.g, [], 0)
  }

  function KeyOf(p: Plan, i: nat): CopyKey {
    CopyKey(p.g, i % TARGET_COUNT, CopyOf(p, i).copyAttempt)
  }

  // ---- what a holder knows ----

  /** While the claim stands, these are the captured days of the generation. */
  predicate PlanHolds(c: State, g: int, claim: string, days: set<Day>) {
    HoldsClaim(c, g, claim) ==> g in c.captured && c.captured[g] == days
  }

  /** While the claim stands, the view is right. */
  predicate ViewHolds(c: State, view: ProgressView, claim: string) {
    && PlanHolds(c, view.generation, claim, view.days)
    && view.total == CopyCount(|view.days|)
    && (HoldsClaim(c, view.generation, claim) ==> view.next == c.progress[view.generation].next)
  }

  /** While the claim stands and the Copy is outstanding with this job, its job has run. */
  predicate Ran(w: World, key: CopyKey, claim: string, job: string) {
    HoldsClaim(w.c, key.generation, claim) && HasJob(w.c, key, job) ==> w.jobDone
  }

  /** While the claim stands and the Copy is outstanding, its job has run. */
  predicate RanAny(w: World, key: CopyKey, claim: string) {
    HoldsClaim(w.c, key.generation, claim) && key in w.c.intents ==> w.jobDone
  }

  lemma PlanSince(w: World, w': World, g: int, claim: string, days: set<Day>)
    requires Since(w, w', claim) && PlanHolds(w.c, g, claim, days)
    ensures PlanHolds(w'.c, g, claim, days)
  {}

  lemma ViewSince(w: World, w': World, view: ProgressView, claim: string)
    requires Since(w, w', claim) && ViewHolds(w.c, view, claim)
    ensures ViewHolds(w'.c, view, claim)
  {}

  lemma RanSince(w: World, w': World, key: CopyKey, claim: string, job: string)
    requires Since(w, w', claim)
    ensures Ran(w, key, claim, job) ==> Ran(w', key, claim, job)
    ensures RanAny(w, key, claim) ==> RanAny(w', key, claim)
  {}

  lemma ReachableTables(w: World)
    requires Reachable(w)
    ensures Inv(w.c)
  {
    ReachableWorldInv(w);
  }

  /** A claimed view is right when it is given. */
  lemma ClaimedView(c: State, g: int, claim: string, clock: Clock)
    requires Inv(c) && AssertClaim(c, g, claim, clock).Ok?
    ensures HoldsClaim(c, g, claim) && AssertClaim(c, g, claim, clock).value.generation == g
    ensures ViewHolds(c, AssertClaim(c, g, claim, clock).value, claim)
    ensures AssertClaim(c, g, claim, clock).value.next <= AssertClaim(c, g, claim, clock).value.total
  {
    ClaimHolder(c, g, claim, clock);
  }

  lemma TakenView(c: State, claim: string, clock: Clock)
    requires Inv(c) && ClaimSnapshot(c, claim, clock).reply.Claimed?
    ensures ViewHolds(ClaimSnapshot(c, claim, clock).state, ClaimSnapshot(c, claim, clock).reply.view, claim)
    ensures ClaimSnapshot(c, claim, clock).reply.view.next <= ClaimSnapshot(c, claim, clock).reply.view.total
  {}

  // ---- calls ----

  /** How a call may be answered: not served, or served and then answered or not. */
  ghost predicate Answered(at: World, call: Call, after: World, reply: Option<Reply>) {
    || (after == at && reply.None?)
    || exists clock :: ServedAs(at, call, clock, after, reply)
  }

  ghost predicate ServedAs(at: World, call: Call, clock: Clock, after: World, reply: Option<Reply>) {
    && Enabled(at, Serve(call, clock)) && after == AfterServe(at, call, clock)
    && (reply.None? || reply == Some(Step(at.c, call, clock).reply))
  }

  /** Calls that are allowed in every world. */
  predicate Free(call: Call) {
    match call
    case OnDelivery(_) => false
    case OnGate(gate) => !gate.CallFinishSnapshot? && !gate.CallFailSnapshot?
    case OnLease(_) => true
    case OnCopy(copy) => copy.CallSettleIntent? ==> !copy.succeeded
    case OnRecovery(_) => true
    case OnErasure(_) => false
  }

  /** The call is allowed in every world that others may make meanwhile. */
  ghost predicate StaysAllowed(w: World, claim: string, call: Call) {
    forall v {:trigger Since(w, v, claim)} :: Since(w, v, claim) && Reachable(v) ==> Allowed(v, call)
  }

  lemma FreeStaysAllowed(w: World, claim: string, call: Call)
    requires Free(call)
    ensures StaysAllowed(w, claim, call)
  {
    forall v | Since(w, v, claim) && Reachable(v) ensures Allowed(v, call) {}
  }

  lemma ChunkOfPlan(g: int, days: seq<Day>, plans: seq<CopyPlan>, chunk: nat)
    requires ArePlans(g, days, plans) && chunk < |plans|
    ensures plans[chunk].days == ChunkDays(days, chunk)
  {}

  lemma CapturedCopyDays(c: State, g: int, days: set<Day>, copyIndex: nat)
    requires c.activeGeneration == Some(g) && g in c.captured && c.captured[g] == days
    ensures CopyDays(c, copyIndex) == DaySet(ChunkDays(Ordered(days), copyIndex / TARGET_COUNT))
  {}

  /** The key and the days of the Copy at a cursor position, as the runner plans them. */
  lemma PlannedDays(c: State, g: int, days: set<Day>, plans: seq<CopyPlan>, copyIndex: nat)
    requires Plannable(g, |days|) && ArePlans(g, Ordered(days), plans) && copyIndex < CopyCount(|days|)
    requires c.activeGeneration == Some(g) && g in c.captured && c.captured[g] == days
    ensures copyIndex / TARGET_COUNT < |plans|
    ensures CopyDays(c, copyIndex) == DaySet(plans[copyIndex / TARGET_COUNT].days)
  {
    PlanAgreesWithCursor(g, Ordered(days), plans, copyIndex);
    CapturedCopyDays(c, g, days, copyIndex);
    ChunkOfPlan(g, Ordered(days), plans, copyIndex / TARGET_COUNT);
  }

  lemma {:induction false} AscendingIsOrdered(days: seq<Day>)
    requires Ascending(days)
    ensures Ordered(DaySet(days)) == days
  {
    if days != [] {
      var init, last := days[..|days| - 1], days[|days| - 1];
      assert days == init + [last];
      assert DaySet(days) == DaySet(init) + {last};
      assert DayGraph.IsLatest(DaySet(days), last);
      assert DaySet(days) - {last} == DaySet(init);
      AscendingIsOrdered(init);
    }
  }

  /** The days of a view, in order. */
  method ListDays(days: set<Day>) returns (sorted: seq<Day>)
    ensures sorted == Ordered(days)
  {
    sorted := [];
    var rest := days;
    while rest != {}
      invariant rest <= days && Ascending(sorted) && DaySet(sorted) == days - rest
      decreases |rest|
    {
      DayGraph.NonEmpty(rest);
      var d :| d in rest;
      sorted := InsertDay(sorted, d);
      rest := rest - {d};
    }
    AscendingIsOrdered(sorted);
  }

  class SnapshotRunner {
    const org: string
    const coordinator: Coordinator
    const claim: string
    const oldest: Day
    const today: Day
    /** Whether nobody else acts during a run, every call is answered, and all of it happens at one instant. */
    const calm: bool
    const instant: int
    /** Whether the job of the outstanding Copy has run: the state of the Copy service. */
    var jobDone: bool
    /** The world around the coordinator. */
    ghost var w: World
    /** The generations whose capacity slot this runner was granted. */
    ghost var granted: set<SnapshotKey>
    /** A recorded intent that was not submitted yet, with the days the coordinator expects. */
    ghost var recorded: Option<Started>
    ghost var started: seq<Started>
    /** The jobs that the Copy service reported as failed. */
    ghost var failed: set<string>
    /** How often a continuation was scheduled, and the generations whose slot was given back. */
    ghost var wakeups: nat
    ghost var released: set<SnapshotKey>

    ghost predicate Valid()
      reads this, coordinator
    {
      && coordinator.Valid() && coordinator.Tables() == w.c && Reachable(w)
      && w.oldest == oldest && w.today == today && w.jobDone == jobDone
      && (forall s :: s in started ==> SnapshotKey(org, s.key.generation) in granted)
      && (recorded.Some? ==> SnapshotKey(org, recorded.value.key.generation) in granted)
    }

    constructor (
      org: string, coordinator: Coordinator, claim: string, oldest: Day, today: Day, calm: bool, instant: int, jobDone: bool,
      ghost w: World)
      requires coordinator.Valid() && coordinator.Tables() == w.c && Reachable(w)
      requires w.oldest == oldest && w.today == today && w.jobDone == jobDone
      ensures Valid() && started == [] && granted == {}
      ensures this.claim == claim && this.coordinator == coordinator && this.org == org && this.calm == calm
    {
      this.org, this.coordinator, this.claim := org, coordinator, claim;
      this.oldest, this.today, this.jobDone := oldest, today, jobDone;
      this.calm, this.instant := calm, instant;
      this.w, granted, recorded, started := w, {}, None, [];
      failed, wakeups, released := {}, 0, {};
    }

    /** The instant of a calm run. */
    function Now(): Clock {
      Clock(instant, oldest, today)
    }

    /** A Copy is settled as failed only when the service reported its job so. */
    ghost predicate Reported(call: Call)
      reads this
    {
      call.OnCopy? && call.copy.CallSettleIntent? && !call.copy.succeeded ==> call.copy.job in failed
    }

    /** A pause: deliveries, other runners, Copy jobs and operators act, but not under this claim. */
    method Pause()
      requires Valid()
      modifies coordinator, `w, `jobDone
      ensures Valid() && Since(old(w), w, claim) && (calm ==> w == old(w))
      ensures exists run :: Others(run, claim) && IsRun(old(w), run) && w == End(old(w), run)
    {
      assert Others([], claim) && IsRun(w, []) && w == End(w, []);
      SinceNow(w, claim);
    }

    /**
     * One call to the coordinator, under its slot if it records an intent, and with the service's report if
     * it settles a Copy as failed. It may be lost on the way, and so may its answer.
     */
    method Request(call: Call) returns (reply: Option<Reply>, seen: State, ghost at: World, ghost after: World)
      requires Valid() && StaysAllowed(w, claim, call) && Granted(granted, org, call) && Reported(call)
      modifies coordinator, `w, `jobDone
      ensures Valid() && Since(old(w), at, claim) && Reachable(at) && Since(after, w, claim) && Reachable(after)
      ensures Answered(at, call, after, reply) && (reply.Some? ==> seen == after.c)
      ensures calm ==> at == old(w) && after == w
      ensures calm ==> w.c == Step(at.c, call, Now()).state && reply == Some(Step(at.c, call, Now()).reply)
    {
      Pause();
      at, after, reply, seen := w, w, None, coordinator.Tables();
      var reached: bool := *;
      if reached || calm {
        var now: int := *;
        var clock := if calm then Now() else Clock(now, oldest, today);
        var answer := Deliver(call, clock);
        after, seen := w, coordinator.Tables();
        var heard: bool := *;
        if heard || calm {
          reply := Some(answer);
        }
        assert ServedAs(at, call, clock, after, reply);
      }
      Pause();
    }

    method Deliver(call: Call, clock: Clock) returns (answer: Reply)
      requires Valid() && Enabled(w, Serve(call, clock))
      modifies coordinator, `w, `jobDone
      ensures Valid() && w == AfterServe(old(w), call, clock) && answer == Step(old(w).c, call, clock).reply
    {
      ReachableNext(w, Serve(call, clock));
      ghost var log := coordinator.log;
      var keys := coordinator.intents.Keys;
      answer := coordinator.Handle(call, clock);
      assert coordinator.log[..|coordinator.log| - 1] == log;
      jobDone := jobDone && coordinator.intents.Keys == keys;
      w := AfterServe(w, call, clock);
    }

    // ---- reading ----

    /** Reads the progress under the claim. */
    method ReadProgress(g: int) returns (view: Option<ProgressView>, ghost read: World)
      requires Valid()
      modifies coordinator, `w, `jobDone
      ensures Valid() && Since(old(w), read, claim)
      ensures HoldsClaim(w.c, g, claim) ==> HoldsClaim(old(w).c, g, claim)
      ensures view.Some? ==> view.value.generation == g && HoldsClaim(read.c, g, claim) && view.value.next <= view.value.total
      ensures view.Some? ==> ViewHolds(read.c, view.value, claim) && ViewHolds(w.c, view.value, claim)
      ensures calm ==> w.c == old(w).c && (view.Some? <==> AssertClaim(w.c, g, claim, Now()).Ok?)
    {
      var call := OnLease(CallGetProgress(g, claim));
      FreeStaysAllowed(w, claim, call);
      ghost var after;
      var reply, seen;
      reply, seen, read, after := Request(call);
      view := if reply.Some? && reply.value.Claimed? then Some(reply.value.view) else None;
      QuietKeepsClaim(read, call, after, reply, g, claim);
      if view.Some? {
        ProgressAnswer(read, g, claim, after, view.value);
        ViewSince(after, w, view.value, claim);
      }
    }

    /** The outstanding intents, read without a claim and compared with the key at the cursor. */
    method ReadIntent(view: ProgressView, key: CopyKey) returns (read: IntentRead)
      requires Valid() && ViewHolds(w.c, view, claim)
      requires KeyAt(view.generation, |view.days|, view.next) == Some(key)
      modifies coordinator, `w, `jobDone
      ensures Valid() && ViewHolds(w.c, view, claim)
      ensures read.Conflicting? ==> !HoldsClaim(w.c, view.generation, claim)
      ensures calm ==> w.c == old(w).c && !read.Unread? && (read.NoIntent? <==> w.c.intents == map[])
      ensures calm ==> (read.Outstanding? <==> w.c.intents.Keys == {key})
      ensures calm && read.Outstanding? ==> read.intent == w.c.intents[key]
    {
      ghost var w0 := w;
      Pause();
      ViewSince(w0, w, view, claim);
      var heard: bool := *;
      if !heard && !calm {
        return Unread;
      }
      read := RequireCurrent(coordinator.intents, key);
      ghost var w1 := w;
      if read.Conflicting? && HoldsClaim(w.c, view.generation, claim) {
        ReachableTables(w);
        HolderSeesCursor(w.c, view, claim, key);
      }
      Pause();
      ViewSince(w1, w, view, claim);
    }

    /** What the schedule says: the failure row, the check row and whether the wake-up is still ahead. */
    method ReadSchedule() returns (schedule: Option<Schedule>)
      requires Valid()
      modifies coordinator, `w, `jobDone
      ensures Valid() && Since(old(w), w, claim)
      ensures calm ==> w.c == old(w).c && schedule.Some?
      ensures calm ==> schedule.value == Schedule(w.c.failure, w.c.check, schedule.value.asleep)
    {
      ghost var w0 := w;
      Pause();
      ghost var w1 := w;
      var asleep: bool := *;
      var heard: bool := *;
      schedule := if heard || calm then Some(Schedule(coordinator.failure, coordinator.check, asleep)) else None;
      Pause();
      SinceTrans(w0, w1, w, claim);
    }

    /** Asking for a continuation sets an alarm, which is not part of the tables; it may fail. */
    method ScheduleContinuation() returns (ok: bool)
      requires Valid()
      modifies coordinator, `w, `jobDone, `wakeups
      ensures Valid() && Since(old(w), w, claim) && (calm ==> ok && w.c == old(w).c)
      ensures wakeups == old(wakeups) + if ok then 1 else 0
    {
      Pause();
      ok := *;
      ok := ok || calm;
      wakeups := wakeups + if ok then 1 else 0;
    }

    // ---- the Copy service ----

    /** Submits the Copy whose intent was recorded, for the days the coordinator expects. */
    method StartCopy(key: CopyKey, copy: CopyPlan) returns (start: Start)
      requires Valid() && recorded == Some(Started(key, DaySet(copy.days)))
      modifies coordinator, `w, `jobDone, `recorded, `started
      ensures Valid() && Since(old(w), w, claim)
      ensures recorded == None && started == old(started) + [Started(key, DaySet(copy.days))]
      ensures calm ==> w.c == old(w).c
    {
      started, recorded := started + [recorded.value], None;
      Pause();
      start := *;
    }

    /** The status of a job. The job of the outstanding Copy is reported finished only once it has run. */
    method ReadJobStatus(key: CopyKey, job: string) returns (read: JobRead)
      requires Valid()
      modifies coordinator, `w, `jobDone, `failed
      ensures Valid() && Since(old(w), w, claim) && old(failed) <= failed && (calm ==> w.c == old(w).c)
      ensures read == Status(JobDone) ==> Ran(w, key, claim, job)
      ensures read == Status(JobFailed) ==> job in failed
    {
      ghost var w0 := w;
      Pause();
      ghost var w1 := w;
      read := *;
      if read == Status(JobDone) && HasJob(coordinator.Tables(), key, job) && !jobDone {
        read := Status(JobWorking);
      }
      NoteFailure(read == Status(JobFailed), job);
      Pause();
      SinceTrans(w0, w1, w, claim);
      RanSince(w1, w, key, claim, job);
    }

    /** Remembers a job that was reported failed. */
    ghost method NoteFailure(isFailed: bool, job: string)
      modifies `failed
      ensures failed == if isFailed then old(failed) + {job} else old(failed)
    {
      failed := if isFailed then failed + {job} else failed;
    }

    /** Looks for the job of an intent. It is reported finished only once the outstanding Copy has run. */
    method DiscoverJob(key: CopyKey, intent: Intent) returns (found: FoundJob)
      requires Valid()
      modifies coordinator, `w, `jobDone, `failed
      ensures Valid() && Since(old(w), w, claim) && old(failed) <= failed && (calm ==> w.c == old(w).c)
      ensures found.Found? && found.status.JobDone? ==> RanAny(w, key, claim)
      ensures found.Found? && found.status.JobFailed? ==> found.job in failed
      ensures found.Found? && intent.job.Some? ==> intent.job == Some(found.job)
    {
      ghost var w0 := w;
      Pause();
      ghost var w1 := w;
      found := AnyJob(intent, key in coordinator.intents && !jobDone);
      Pause();
      SinceTrans(w0, w1, w, claim);
      RanSince(w1, w, key, claim, "");
    }

    /** What the service may say of an intent's job; a changed receipt is an error. */
    method AnyJob(intent: Intent, unfinished: bool) returns (found: FoundJob)
      modifies `failed
      ensures old(failed) <= failed
      ensures found.Found? && found.status.JobDone? ==> !unfinished
      ensures found.Found? && found.status.JobFailed? ==> found.job in failed
      ensures found.Found? && intent.job.Some? ==> intent.job == Some(found.job)
    {
      found := *;
      if found.Found? {
        if intent.job.Some? && intent.job != Some(found.job) {
          found := Undiscovered;
        } else if found.status.JobDone? && unfinished {
          found := Found(found.job, JobWorking);
        }
      }
      NoteFailure(found.Found? && found.status.JobFailed?, if found.Found? then found.job else "");
    }

    // ---- one Copy ----

    /** Records the intent of the planned Copy; if it is accepted, plan and coordinator agree on it. */
    method RecordCopy(plan: Plan, i: nat, key: CopyKey) returns (ok: bool)
      requires Valid() && IsPlan(plan) && PlanHolds(w.c, plan.g, claim, plan.days)
      requires SnapshotKey(org, plan.g) in granted
      requires i < CopyCount(|plan.days|) && key == KeyOf(plan, i)
      modifies coordinator, `w, `jobDone, `recorded
      ensures Valid() && (ok ==> recorded == Some(Started(key, DaySet(CopyOf(plan, i).days))))
      ensures calm && StartsAt(old(w).c, plan.g, key, i) ==>
        ok && w.c == Recorded(old(w).c, plan.g, Now(), key) && NeverStarted(w.c, plan.g, key, i)
    {
      var startedAt: int := *;
      startedAt := if calm then instant else startedAt;
      var call := OnCopy(CallRecordIntent(key, claim, i, startedAt));
      FreeStaysAllowed(w, claim, call);
      ghost var w0, at, after := w, w, w;
      var reply, seen;
      reply, seen, at, after := Request(call);
      ok := reply == Some(Done);
      if ok {
        PlanSince(w0, at, plan.g, claim, plan.days);
        recorded := Some(Started(key, CopyDays(at.c, Cursor(at.c))));
        RecordedAsPlanned(at, after, plan, i, claim, startedAt);
      }
      if calm && StartsAt(w0.c, plan.g, key, i) {
        AcceptsRecord(w0.c, plan.g, claim, Now(), key);
        RecordedIsReady(w0.c, plan.g, claim, Now(), key);
      }
    }

    /** Nothing is outstanding, and this Copy is next. */
    ghost predicate StartsAt(c: State, g: int, key: CopyKey, i: nat) {
      ReadyFor(c, g, claim, Now(), key) && c.progress[g].next == i && c.intents == map[]
    }

    /** This Copy is next and outstanding, with this job or none yet. */
    ghost predicate AttachesAt(c: State, g: int, key: CopyKey, i: nat, job: string) {
      && ReadyFor(c, g, claim, Now(), key) && c.progress[g].next == i && key in c.intents
      && (c.intents[key].job.Some? ==> c.intents[key].job == Some(job))
    }

    /** This Copy is next and outstanding, and it has this job. */
    ghost predicate SettlesAt(c: State, g: int, key: CopyKey, job: string) {
      ReadyFor(c, g, claim, Now(), key) && HasJob(c, key, job)
    }

    /** Attaches the job to the outstanding intent. */
    method AttachReceipt(view: ProgressView, key: CopyKey, job: string) returns (ok: bool)
      requires Valid() && ViewHolds(w.c, view, claim)
      modifies coordinator, `w, `jobDone
      ensures Valid() && ViewHolds(w.c, view, claim)
      ensures RanAny(old(w), key, claim) ==> RanAny(w, key, claim)
      ensures calm && AttachesAt(old(w).c, view.generation, key, view.next, job) ==> ok && w.c == Attached(old(w).c, key, job)
    {
      var call := OnCopy(CallAttachJob(key, claim, view.next, job));
      FreeStaysAllowed(w, claim, call);
      ghost var w0, at, after := w, w, w;
      var reply, seen;
      reply, seen, at, after := Request(call);
      ok := reply == Some(Done);
      ViewSince(w0, at, view, claim);
      RanSince(w0, at, key, claim, job);
      AttachMovesNothing(at, after, reply, view, key, claim, job);
      ViewSince(after, w, view, claim);
      RanSince(after, w, key, claim, job);
      if calm && AttachesAt(w0.c, view.generation, key, view.next, job) {
        AcceptsAttach(w0.c, view.generation, claim, Now(), key, job);
      }
    }

    method RejectCopy(g: int, key: CopyKey, i: nat, reason: string)
      requires Valid()
      modifies coordinator, `w, `jobDone
      ensures Valid()
      ensures calm && NeverStarted(old(w).c, g, key, i) ==> w.c == GivenUp(old(w).c, Now(), Some(Failure(g, reason, instant)))
    {
      var call := OnCopy(CallRejectIntent(key, claim, i, reason));
      FreeStaysAllowed(w, claim, call);
      ghost var w0 := w;
      var _, _, _, _ := Request(call);
      if calm && NeverStarted(w0.c, g, key, i) {
        ReachableTables(w0);
        RejectedEnds(w0.c, g, claim, Now(), key, reason);
      }
    }

    ghost predicate NeverStarted(c: State, g: int, key: CopyKey, i: nat) {
      ReadyFor(c, g, claim, Now(), key) && c.progress[g].next == i && key in c.intents && c.intents[key].job.None?
    }

    /**
     * Settles the Copy: as done only when its job has run, and then the cursor is one further; as failed only
     * when the service reported it so.
     */
    method SettleCopy(view: ProgressView, key: CopyKey, job: string, succeeded: bool) returns (ok: bool)
      requires Valid() && ViewHolds(w.c, view, claim) && key.generation == view.generation
      requires if succeeded then Ran(w, key, claim, job) else job in failed
      modifies coordinator, `w, `jobDone
      ensures Valid() && (ok && succeeded ==> ViewHolds(w.c, view.(next := view.next + 1), claim))
      ensures calm && SettlesAt(old(w).c, view.generation, key, job) ==>
        ok && w.c == JobEnds(old(w).c, view.generation, Now(), job, if succeeded then JobDone else JobFailed).state
    {
      var call := OnCopy(CallSettleIntent(key, claim, view.next, job, succeeded));
      SettlementStaysAllowed(w, claim, key, view.next, job, succeeded);
      ghost var w0, at, after := w, w, w;
      var reply, seen;
      reply, seen, at, after := Request(call);
      ok := reply == Some(Done);
      if ok && succeeded {
        ViewSince(w0, at, view, claim);
        SettledAdvances(at, after, view, key, claim, job);
        ViewSince(after, w, view.(next := view.next + 1), claim);
      }
      if calm && SettlesAt(w0.c, view.generation, key, job) {
        SettlementIsServed(w0, view, key, job, succeeded);
      }
    }

    lemma SettlementIsServed(at: World, view: ProgressView, key: CopyKey, job: string, succeeded: bool)
      requires Reachable(at) && SettlesAt(at.c, view.generation, key, job) && ViewHolds(at.c, view, claim)
      ensures Step(at.c, OnCopy(CallSettleIntent(key, claim, view.next, job, succeeded)), Now()) ==
        Outcome(JobEnds(at.c, view.generation, Now(), job, if succeeded then JobDone else JobFailed).state, Done)
    {
      ReachableTables(at);
      if succeeded {
        DoneIsSettled(at.c, view.generation, claim, Now(), key, job);
      } else {
        FailedIsSettled(at.c, view.generation, claim, Now(), key, job);
      }
    }

    /** Counts a check against its budget; true when it may be made now. */
    method PrepareCheck(view: ProgressView, recovery: bool) returns (ready: Option<bool>)
      requires Valid() && ViewHolds(w.c, view, claim)
      modifies coordinator, `w, `jobDone
      ensures Valid() && ViewHolds(w.c, view, claim)
      ensures calm && Ready(old(w).c, view.generation, claim, Now()) ==>
        CheckMade(old(w).c, w.c, view.generation, recovery, ready)
    {
      var call := OnRecovery(CallPrepareCheck(view.generation, claim, view.next, recovery));
      FreeStaysAllowed(w, claim, call);
      ghost var w0, at, after := w, w, w;
      var reply, seen;
      reply, seen, at, after := Request(call);
      ready := if reply.Some? && reply.value.CheckResult? then Some(reply.value.ready) else None;
      ViewSince(w0, at, view, claim);
      RecoveryMovesNothing(at, after, reply, call, view, claim);
      ViewSince(after, w, view, claim);
      if calm && Ready(w0.c, view.generation, claim, Now()) {
        CheckIsAnswered(w0.c, view.generation, claim, Now(), recovery);
      }
    }

    /** The check was answered. */
    ghost predicate CheckMade(c: State, c1: State, g: int, recovery: bool, ready: Option<bool>) {
      g in c.progress &&
      var checked := Checked(c, g, claim, Now(), recovery).reply;
      && checked.CheckResult? && ready == Some(checked.ready) && c1 == c.(check := Some(checked.check))
      && Ready(c1, g, claim, Now())
    }

    method RequireRecovery(g: int) returns (ok: bool)
      requires Valid()
      modifies coordinator, `w, `jobDone
      ensures Valid() && (calm && Holding(old(w).c, g, claim, Now()) ==> ok && w.c == WithRecovery(old(w).c))
    {
      var call := OnRecovery(CallRequireRecovery(g, claim));
      FreeStaysAllowed(w, claim, call);
      ghost var w0 := w;
      var reply, _, _, _ := Request(call);
      ok := reply == Some(Done);
      if calm && Holding(w0.c, g, claim, Now()) {
        RecoveryIsRequired(w0.c, g, claim, Now());
      }
    }

    /** Gives the claim up for now and leaves the rest to a later run. */
    method ContinueRun(g: int) returns (tried: Tried)
      requires Valid()
      modifies coordinator, `w, `jobDone, `wakeups
      ensures Valid() && !tried.Onward? && (tried.Returned? ==> tried.result == Continued)
      ensures if tried.Returned? then wakeups > old(wakeups) else wakeups == old(wakeups)
      ensures calm && Holding(old(w).c, g, claim, Now()) ==> Ending(w.c, tried) == Paused(old(w).c, Now())
    {
      var call := OnLease(CallReleaseClaim(g, claim));
      FreeStaysAllowed(w, claim, call);
      ghost var w0 := w;
      var reply, _, _, _ := Request(call);
      if calm && Holding(w0.c, g, claim, Now()) {
        ReleasePauses(w0.c, g, claim, Now());
      }
      if reply.None? || reply.value.Refused? {
        return Thrown;
      }
      var ok := ScheduleContinuation();
      tried := if ok then Returned(Continued) else Thrown;
    }

    /** Records the intent of the next Copy and submits it; whatever happens, the run ends after it. */
    method StartNext(plan: Plan, view: ProgressView, key: CopyKey) returns (tried: Tried, ghost said: Said)
      requires Valid() && IsPlan(plan) && OfPlan(view, plan) && ViewHolds(w.c, view, claim)
      requires SnapshotKey(org, plan.g) in granted
      requires view.next < CopyCount(|plan.days|) && key == KeyOf(plan, view.next)
      modifies coordinator, `w, `jobDone, `recorded, `started, `wakeups
      ensures Valid() && !tried.Onward? && Unfinished(tried) && Woken(tried, old(wakeups))
      ensures started == old(started) + if said.StartSaid? then [Started(key, DaySet(CopyOf(plan, view.next).days))] else []
      ensures calm && StartsAt(old(w).c, plan.g, key, view.next) ==>
        said.StartSaid? && Ending(w.c, tried) == StartEnds(old(w).c, plan.g, Now(), key, said.start)
    {
      said := Unasked;
      var active := AssertActive(view);
      if !active {
        return Thrown, said;
      }
      var late: bool := *;
      if late && !calm {
        tried := ContinueRun(plan.g);
        return;
      }
      var ok := RecordCopy(plan, view.next, key);
      if !ok {
        return Thrown, said;
      }
      tried, said := SubmitCopy(plan.g, key, view.next, CopyOf(plan, view.next));
    }

    /** Submits a recorded Copy and attaches its receipt; one that the service rejects ends the generation. */
    method SubmitCopy(g: int, key: CopyKey, i: nat, copy: CopyPlan) returns (tried: Tried, ghost said: Said)
      requires Valid() && recorded == Some(Started(key, DaySet(copy.days)))
      modifies coordinator, `w, `jobDone, `recorded, `started, `wakeups
      ensures Valid() && !tried.Onward? && Unfinished(tried) && Woken(tried, old(wakeups)) && said.StartSaid?
      ensures started == old(started) + [Started(key, DaySet(copy.days))]
      ensures calm && NeverStarted(old(w).c, g, key, i) ==>
        Ending(w.c, tried) == SubmittedEnds(old(w).c, g, Now(), key, said.start)
    {
      var start := StartCopy(key, copy);
      said := StartSaid(start);
      match start {
        case Receipt(job) =>
          tried := AttachStarted(g, key, i, job);
        case Rejected(reason) =>
          RejectCopy(g, key, i, reason);
          tried := Thrown;
        case Unknown =>
          tried := Thrown;
      }
    }

    /** A run that is continued later has asked for that. */
    ghost predicate Woken(tried: Tried, before: nat)
      reads this
    {
      wakeups >= before && (tried.Returned? && (tried.result.Continued? || tried.result.Scheduled?) ==> wakeups > before)
    }

    method AssertActive(view: ProgressView) returns (active: bool)
      requires Valid() && ViewHolds(w.c, view, claim)
      modifies coordinator, `w, `jobDone
      ensures Valid() && ViewHolds(w.c, view, claim)
      ensures calm && Ready(old(w).c, view.generation, claim, Now()) ==> active && w.c == old(w).c
    {
      var call := OnLease(CallAssertActive(view.generation, claim));
      FreeStaysAllowed(w, claim, call);
      ghost var w0, at, after := w, w, w;
      var reply, seen;
      reply, seen, at, after := Request(call);
      active := reply.Some? && reply.value.IsActive?;
      ViewSince(w0, at, view, claim);
      AssertMovesNothing(at, after, reply, view, claim);
      ViewSince(after, w, view, claim);
      if calm && Ready(w0.c, view.generation, claim, Now()) {
        ActiveIsConfirmed(w0.c, view.generation, claim, Now());
      }
    }

    method AttachStarted(g: int, key: CopyKey, i: nat, job: string) returns (tried: Tried)
      requires Valid()
      modifies coordinator, `w, `jobDone, `wakeups
      ensures Valid() && !tried.Onward? && Unfinished(tried) && Woken(tried, old(wakeups))
      ensures calm && AttachesAt(old(w).c, g, key, i, job) ==> Ending(w.c, tried) == Paused(Attached(old(w).c, key, job), Now())
    {
      var call := OnCopy(CallAttachJob(key, claim, i, job));
      FreeStaysAllowed(w, claim, call);
      ghost var w0 := w;
      var reply, _, _, _ := Request(call);
      if calm && AttachesAt(w0.c, g, key, i, job) {
        AcceptsAttach(w0.c, g, claim, Now(), key, job);
        AttachedIsReady(w0.c, g, claim, Now(), key, job);
      }
      if reply != Some(Done) {
        return Thrown;
      }
      tried := ContinueRun(g);
    }

    /**
     * A job that is over is still to be settled, and settling it ends the turn like this; with any other the
     * turn has ended like this.
     */
    ghost predicate EndsLike(c: State, g: int, key: CopyKey, tried: Tried, job: string, succeeded: bool, ending: Ending) {
      if tried.Onward? then
        && SettlesAt(c, g, key, job)
        && JobEnds(c, g, Now(), job, if succeeded then JobDone else JobFailed) == ending
      else Ending(c, tried) == ending
    }

    /** What the service reported, when the job is over. */
    ghost predicate Settles(view: ProgressView, key: CopyKey, tried: Tried, job: string, succeeded: bool, said: Said)
      reads this, coordinator
    {
      tried.Onward? ==>
        && ViewHolds(w.c, view, claim) && Reports(said, job, succeeded)
        && if succeeded then Ran(w, key, claim, job) else job in failed
    }

    /**
     * What became of the outstanding Copy: its job and, if that is known and final, its status. A job is
     * taken for done, or for failed, exactly as the service reported it.
     */
    method CheckJob(view: ProgressView, key: CopyKey, intent: Intent)
      returns (tried: Tried, job: string, succeeded: bool, ghost said: Said)
      requires Valid() && ViewHolds(w.c, view, claim)
      modifies coordinator, `w, `jobDone, `failed, `wakeups
      ensures Valid() && Unfinished(tried) && Woken(tried, old(wakeups)) && !said.StartSaid?
      ensures Settles(view, key, tried, job, succeeded, said)
      ensures calm && IsOutstanding(old(w).c, view.generation, key, intent) ==>
        && Asks(old(w).c, view.generation, claim, Now(), key, said)
        && EndsLike(
             w.c, view.generation, key, tried, job, succeeded,
             TurnEnds(old(w).c, view.generation, claim, Now(), key, said))
    {
      job, succeeded, said := "", false, Unasked;
      ghost var w0 := w;
      var schedule := ReadSchedule();
      if schedule.None? {
        return Thrown, "", false, said;
      }
      ViewSince(w0, w, view, claim);
      var recovery := intent.job.None? || (schedule.value.check.Some? && schedule.value.check.value.recoveryRequired);
      tried, job, succeeded, said := AskWhenDue(view, key, intent, recovery);
    }

    /** Counts a check and makes it, unless it is not due. */
    method AskWhenDue(view: ProgressView, key: CopyKey, intent: Intent, recovery: bool)
      returns (tried: Tried, job: string, succeeded: bool, ghost said: Said)
      requires Valid() && ViewHolds(w.c, view, claim) && (intent.job.None? ==> recovery)
      modifies coordinator, `w, `jobDone, `failed, `wakeups
      ensures Valid() && Unfinished(tried) && Woken(tried, old(wakeups)) && !said.StartSaid?
      ensures Settles(view, key, tried, job, succeeded, said)
      ensures calm && IsOutstanding(old(w).c, view.generation, key, intent) && recovery == NeedsReceipt(old(w).c, key) ==>
        && Asks(old(w).c, view.generation, claim, Now(), key, said)
        && EndsLike(
             w.c, view.generation, key, tried, job, succeeded,
             TurnEnds(old(w).c, view.generation, claim, Now(), key, said))
    {
      job, succeeded, said := "", false, Unasked;
      var ready := PrepareCheck(view, recovery);
      if ready.None? {
        return Thrown, "", false, said;
      }
      if !ready.value {
        tried := ContinueRun(view.generation);
        return;
      }
      tried, job, succeeded, said := AskService(view, key, intent, recovery);
    }

    /** Looks for the job, or reads its status. */
    method AskService(view: ProgressView, key: CopyKey, intent: Intent, recovery: bool)
      returns (tried: Tried, job: string, succeeded: bool, ghost said: Said)
      requires Valid() && ViewHolds(w.c, view, claim) && (intent.job.None? ==> recovery)
      modifies coordinator, `w, `jobDone, `failed, `wakeups
      ensures Valid() && Unfinished(tried) && Woken(tried, old(wakeups))
      ensures Settles(view, key, tried, job, succeeded, said)
      ensures if recovery then said.ReceiptSaid? && (said.found.Found? && intent.job.Some? ==> intent.job == Some(said.found.job))
        else said.StatusSaid? && Some(said.job) == intent.job
      ensures calm && IsOutstanding(old(w).c, view.generation, key, intent) ==>
        EndsLike(w.c, view.generation, key, tried, job, succeeded, AnswerEnds(old(w).c, view.generation, Now(), key, said))
    {
      if recovery {
        tried, job, succeeded, said := RecoverJob(view, key, intent);
      } else {
        tried, succeeded, said := PollJob(view, key, intent.job.value);
        job := intent.job.value;
      }
    }

    ghost predicate IsOutstanding(c: State, g: int, key: CopyKey, intent: Intent) {
      ReadyFor(c, g, claim, Now(), key) && key in c.intents && c.intents[key] == intent
    }

    /** Finds the job by its intent and attaches it again. */
    method RecoverJob(view: ProgressView, key: CopyKey, intent: Intent)
      returns (tried: Tried, job: string, succeeded: bool, ghost said: Said)
      requires Valid() && ViewHolds(w.c, view, claim)
      modifies coordinator, `w, `jobDone, `failed, `wakeups
      ensures Valid() && Unfinished(tried) && Woken(tried, old(wakeups))
      ensures Settles(view, key, tried, job, succeeded, said)
      ensures said.ReceiptSaid? && (said.found.Found? && intent.job.Some? ==> intent.job == Some(said.found.job))
      ensures calm && IsOutstanding(old(w).c, view.generation, key, intent) ==>
        EndsLike(w.c, view.generation, key, tried, job, succeeded, ReceiptEnds(old(w).c, view.generation, Now(), key, said.found))
    {
      job, succeeded := "", false;
      ghost var w0 := w;
      var found := DiscoverJob(key, intent);
      said := ReceiptSaid(found);
      if found.Undiscovered? {
        return Thrown, "", false, said;
      }
      if found.NotFound? {
        tried := ContinueRun(view.generation);
        return;
      }
      ViewSince(w0, w, view, claim);
      tried, succeeded := TakeReceipt(view, key, found.job, found.status);
      job := found.job;
    }

    /** Attaches the job that was found; unless it is over the run is continued later. */
    method TakeReceipt(view: ProgressView, key: CopyKey, job: string, status: JobStatus) returns (tried: Tried, succeeded: bool)
      requires Valid() && ViewHolds(w.c, view, claim)
      requires status.JobDone? ==> RanAny(w, key, claim)
      requires status.JobFailed? ==> job in failed
      modifies coordinator, `w, `jobDone, `wakeups
      ensures Valid() && Unfinished(tried) && Woken(tried, old(wakeups))
      ensures tried.Onward? ==> (if succeeded then status.JobDone? else status.JobFailed?)
      ensures tried.Onward? ==> ViewHolds(w.c, view, claim) && (succeeded ==> Ran(w, key, claim, job))
      ensures calm && AttachesAt(old(w).c, view.generation, key, view.next, job) ==>
        EndsLike(
          w.c, view.generation, key, tried, job, succeeded,
          JobEnds(Attached(old(w).c, key, job), view.generation, Now(), job, status))
    {
      succeeded := status.JobDone?;
      if calm && AttachesAt(w.c, view.generation, key, view.next, job) {
        AttachedIsReady(w.c, view.generation, claim, Now(), key, job);
      }
      var ok := AttachReceipt(view, key, job);
      if !ok {
        return Thrown, false;
      }
      if !status.JobDone? && !status.JobFailed? {
        tried := ContinueRun(view.generation);
        return;
      }
      tried := Onward;
    }

    /** Reads the status of a job that is attached. */
    method PollJob(view: ProgressView, key: CopyKey, job: string) returns (tried: Tried, succeeded: bool, ghost said: Said)
      requires Valid() && ViewHolds(w.c, view, claim)
      modifies coordinator, `w, `jobDone, `failed, `wakeups
      ensures Valid() && Unfinished(tried) && Woken(tried, old(wakeups))
      ensures Settles(view, key, tried, job, succeeded, said) && said.StatusSaid? && said.job == job
      ensures calm && SettlesAt(old(w).c, view.generation, key, job) ==>
        EndsLike(w.c, view.generation, key, tried, job, succeeded, StatusEnds(old(w).c, view.generation, Now(), job, said.read))
    {
      succeeded := false;
      ghost var w0 := w;
      var read := ReadJobStatus(key, job);
      said := StatusSaid(job, read);
      ViewSince(w0, w, view, claim);
      tried, succeeded := TakeStatus(view, key, job, read);
    }

    /** A job that is over can be settled; one that is unknown is looked for later, and any other waited for. */
    method TakeStatus(view: ProgressView, key: CopyKey, job: string, read: JobRead) returns (tried: Tried, succeeded: bool)
      requires Valid() && ViewHolds(w.c, view, claim)
      requires read == Status(JobDone) ==> Ran(w, key, claim, job)
      requires read == Status(JobFailed) ==> job in failed
      modifies coordinator, `w, `jobDone, `wakeups
      ensures Valid() && Unfinished(tried) && Woken(tried, old(wakeups))
      ensures tried.Onward? ==> read == Status(if succeeded then JobDone else JobFailed)
      ensures tried.Onward? ==> ViewHolds(w.c, view, claim) && (succeeded ==> Ran(w, key, claim, job))
      ensures calm && SettlesAt(old(w).c, view.generation, key, job) ==>
        EndsLike(w.c, view.generation, key, tried, job, succeeded, StatusEnds(old(w).c, view.generation, Now(), job, read))
    {
      succeeded := false;
      if read.NoAnswer? {
        return Thrown, false;
      }
      if read.Missing? {
        var ok := RequireRecovery(view.generation);
        if !ok {
          return Thrown, false;
        }
        tried := ContinueRun(view.generation);
        return;
      }
      if !read.status.JobDone? && !read.status.JobFailed? {
        tried := ContinueRun(view.generation);
        return;
      }
      return Onward, read.status.JobDone?;
    }

    /** Checks the outstanding Copy and, once its job is over, settles it and reads the next position. */
    method CheckOutstanding(plan: Plan, view: ProgressView, key: CopyKey, intent: Intent)
      returns (tried: Tried, next: ProgressView, ghost said: Said)
      requires Valid() && OfPlan(view, plan) && ViewHolds(w.c, view, claim) && key.generation == view.generation
      modifies coordinator, `w, `jobDone, `failed, `wakeups
      ensures Valid() && Unfinished(tried) && Woken(tried, old(wakeups)) && !said.StartSaid?
      ensures tried.Onward? ==> ViewHolds(w.c, next, claim) && OfPlan(next, plan) && next.next == view.next + 1
      ensures calm && IsOutstanding(old(w).c, view.generation, key, intent) ==>
        Turn(old(w).c, w.c, view.generation, claim, Now(), key, said, tried)
    {
      next := view;
      var job, succeeded;
      tried, job, succeeded, said := CheckJob(view, key, intent);
      if !tried.Onward? {
        return;
      }
      tried, next := SettleAndAdvance(plan, view, key, job, succeeded);
    }

    /** Settles the Copy and, if it is done, reads the next position. */
    method SettleAndAdvance(plan: Plan, view: ProgressView, key: CopyKey, job: string, succeeded: bool)
      returns (tried: Tried, next: ProgressView)
      requires Valid() && OfPlan(view, plan) && ViewHolds(w.c, view, claim) && key.generation == view.generation
      requires if succeeded then Ran(w, key, claim, job) else job in failed
      modifies coordinator, `w, `jobDone
      ensures Valid() && !tried.Returned?
      ensures tried.Onward? ==> ViewHolds(w.c, next, claim) && OfPlan(next, plan) && next.next == view.next + 1
      ensures calm && SettlesAt(old(w).c, view.generation, key, job) ==>
        Ending(w.c, tried) == JobEnds(old(w).c, view.generation, Now(), job, if succeeded then JobDone else JobFailed)
    {
      ghost var c := w.c;
      var ok := SettleCopy(view, key, job, succeeded);
      if !ok || !succeeded {
        return Thrown, view;
      }
      if calm && SettlesAt(c, view.generation, key, job) {
        SettledIsHeld(c, view.generation, claim, Now(), key);
      }
      ghost var expected, w0, read := view.(next := view.next + 1), w, w;
      var latest;
      latest, read := ReadProgress(view.generation);
      if latest.None? {
        return Thrown, view;
      }
      ViewsAgree(w0, read, expected, latest.value, claim);
      return Onward, latest.value;
    }

    /**
     * One turn of the loop: the Copy at the cursor is started, or checked, or settled. A calm turn ends as
     * the service's answer says: a done Copy moves the cursor.
     */
    method RunCopy(plan: Plan, view: ProgressView) returns (tried: Tried, next: ProgressView, ghost said: Said)
      requires Valid() && IsPlan(plan) && OfPlan(view, plan) && ViewHolds(w.c, view, claim)
      requires SnapshotKey(org, plan.g) in granted
      requires view.next < CopyCount(|plan.days|)
      modifies coordinator, `w, `jobDone, `recorded, `started, `failed, `wakeups
      ensures Valid() && Unfinished(tried) && Woken(tried, old(wakeups))
      ensures tried.Onward? ==>
        ViewHolds(w.c, next, claim) && OfPlan(next, plan) && next.next == view.next + 1 && !said.StartSaid?
      ensures started == old(started) + if said.StartSaid?
        then [Started(KeyOf(plan, view.next), DaySet(CopyOf(plan, view.next).days))] else []
      ensures calm && Ready(old(w).c, plan.g, claim, Now()) ==>
        && ReadyFor(old(w).c, plan.g, claim, Now(), KeyOf(plan, view.next))
        && Turn(old(w).c, w.c, plan.g, claim, Now(), KeyOf(plan, view.next), said, tried)
    {
      next, said := view, Unasked;
      ghost var c := w.c;
      var key := KeyOf(plan, view.next);
      KeyIsExpected(plan, view.next);
      if calm && Ready(c, plan.g, claim, Now()) {
        PlannedIsReady(c, plan, view, claim, Now());
      }
      var read := ReadIntent(view, key);
      match read {
        case Unread => tried := Thrown;
        case Conflicting => tried := Thrown;
        case NoIntent => tried, said := StartNext(plan, view, key);
        case Outstanding(intent) => tried, next, said := CheckOutstanding(plan, view, key, intent);
      }
    }

    /** Where the turns have come to, and how the last of them ended if it did not go on. */
    ghost predicate CopiesEnd(c: State, c1: State, g: int, at: State, said: Said, tried: Tried) {
      && MovedTo(c, at, g) && Ready(at, g, claim, Now())
      && if tried.Onward? then c1 == at && AllCopied(at, g)
         else CursorKey(at, g).Some? && Turn(at, c1, g, claim, Now(), CursorKey(at, g).value, said, tried)
    }

    /** Drives the Copies in cursor order, until the last is settled or the run ends. */
    method RunCopies(plan: Plan, first: ProgressView)
      returns (tried: Tried, view: ProgressView, ghost at: State, ghost said: Said)
      requires Valid() && IsPlan(plan) && OfPlan(first, plan) && ViewHolds(w.c, first, claim)
      requires SnapshotKey(org, plan.g) in granted
      requires first.next <= first.total
      modifies coordinator, `w, `jobDone, `recorded, `started, `failed, `wakeups
      ensures Valid() && Unfinished(tried) && Woken(tried, old(wakeups))
      ensures |started| == |old(started)| + if said.StartSaid? then 1 else 0
      ensures tried.Onward? ==> ViewHolds(w.c, view, claim) && OfPlan(view, plan) && view.next == view.total && !said.StartSaid?
      ensures calm && Ready(old(w).c, plan.g, claim, Now()) ==> CopiesEnd(old(w).c, w.c, plan.g, at, said, tried)
    {
      view, tried, at, said := first, Onward, w.c, Unasked;
      while view.next < view.total
        invariant Valid() && OfPlan(view, plan) && view.next <= view.total && ViewHolds(w.c, view, claim)
        invariant started == old(started) && wakeups >= old(wakeups) && !said.StartSaid?
        invariant calm && Ready(old(w).c, plan.g, claim, Now()) ==>
          MovedTo(old(w).c, w.c, plan.g) && Ready(w.c, plan.g, claim, Now())
        decreases view.total - view.next
      {
        var late: bool := *;
        if late && !calm {
          tried := ContinueRun(plan.g);
          return;
        }
        at := w.c;
        tried, view, said := RunCopy(plan, view);
        if !tried.Onward? {
          return;
        }
        if calm && Ready(old(w).c, plan.g, claim, Now()) {
          OnwardTurn(at, w.c, plan.g, claim, Now(), CursorKey(at, plan.g).value, said);
          MovesOn(old(w).c, at, plan.g);
        }
      }
      tried, at := Onward, w.c;
    }

    // ---- publishing ----

    /** Stamps the manifest; from then on it may land at any time. */
    method PrepareManifest(g: int) returns (ok: bool)
      requires Valid()
      modifies coordinator, `w, `jobDone
      ensures Valid() && (ok ==> Publishable(w, g))
      ensures calm && CanPublish(old(w).c, g) ==> ok && w.c == Stamp(old(w).c, g, Now())
    {
      var call := OnGate(CallPrepareManifest(g, claim));
      FreeStaysAllowed(w, claim, call);
      ghost var w0, at, after := w, w, w;
      var reply, seen;
      reply, seen, at, after := Request(call);
      if calm && CanPublish(w0.c, g) {
        ManifestIsStamped(w0.c, g, claim, Now());
      }
      ok := reply.Some? && reply.value.Claimed? && reply.value.view.manifestAt.Some?;
      if ok {
        StampedByManifest(at, after, g, claim, reply.value.view);
        assert Publishable(after, g);
      }
    }

    /** All Copies of the held generation are settled. */
    ghost predicate CanPublish(c: State, g: int) {
      Ready(c, g, claim, Now()) && AllCopied(c, g)
    }

    /** Inserts the manifest row. It may fail, and it may land although the answer is lost. */
    method PublishManifest(g: int) returns (ok: bool)
      requires Valid() && Publishable(w, g)
      modifies coordinator, `w, `jobDone
      ensures Valid() && (ok ==> g in w.manifests) && (calm ==> w.c == old(w).c)
    {
      Pause();
      ok := *;
      var landed: bool := *;
      landed := landed || ok;
      if landed {
        Insert(g);
      }
      ghost var w0 := w;
      Pause();
      assert w0.manifests <= w.manifests;
    }

    /** A landing row publishes the active generation, or repeats the row of a published one. */
    ghost method Insert(g: int)
      requires Valid() && Publishable(w, g)
      modifies `w
      ensures Valid() && g in w.manifests && w.c == old(w).c
    {
      if Stamped(w.c, g) {
        ReachableNext(w, Action.Publish);
        w := Next(w, Action.Publish);
      }
    }

    /** Finishes the snapshot, which the runner asks for only once its manifest is published. */
    method FinishSnapshot(g: int) returns (ok: bool)
      requires Valid() && g in w.manifests
      modifies coordinator, `w, `jobDone
      ensures Valid() && (ok ==> Past(w.c, g) && g in w.manifests)
      ensures calm && CanPublish(old(w).c, g) ==> ok && w.c == FinishCapture(old(w).c, g, Now()).(check := None)
    {
      var call := OnGate(CallFinishSnapshot(g, claim));
      FinishStaysAllowed(w, claim, g);
      ghost var w0, at, after := w, w, w;
      var reply, seen;
      reply, seen, at, after := Request(call);
      if calm && CanPublish(w0.c, g) {
        FinishIsServed(w0.c, g, claim, Now());
      }
      ok := reply.Some? && reply.value.Finished?;
      if ok {
        FinishEnds(at, after, g, claim, reply.value);
        assert Past(after.c, g);
      }
    }

    /** Fails the generation, which the runner asks for only while Copies remain or the claim is gone. */
    method FailSnapshot(g: int, reason: Option<string>) returns (ok: bool)
      requires Valid() && MayFail(w, g, claim)
      modifies coordinator, `w, `jobDone
      ensures Valid()
      ensures calm && Ready(old(w).c, g, claim, Now()) && old(w).c.intents == map[] ==>
        ok && w.c == GivenUp(old(w).c, Now(), if reason.Some? then Some(Failure(g, reason.value, instant)) else None)
    {
      var call := OnGate(CallFailSnapshot(g, claim, reason));
      FailStaysAllowed(w, claim, g, reason);
      ghost var w0 := w;
      var reply, _, _, _ := Request(call);
      ok := reply.Some? && reply.value.Retained?;
      if calm && Ready(w0.c, g, claim, Now()) && w0.c.intents == map[] {
        ReachableTables(w0);
        GivenUpIff(w0.c, g, claim, Now(), reason);
      }
    }

    // ---- capacity ----

    /** Asks for one of the global slots, as SnapshotCapacity.Acquire grants them; the answer may be an error. */
    method AcquireSlot(g: int) returns (acquired: Option<bool>)
      requires Valid()
      modifies coordinator, `w, `jobDone, `granted
      ensures Valid() && Since(old(w), w, claim) && (calm ==> w.c == old(w).c)
      ensures granted == if acquired == Some(true) then old(granted) + {SnapshotKey(org, g)} else old(granted)
    {
      Pause();
      acquired := *;
      if acquired == Some(true) {
        granted := granted + {SnapshotKey(org, g)};
      }
    }

    method ReleaseSlot(g: int) returns (ok: bool)
      requires Valid()
      modifies coordinator, `w, `jobDone, `released
      ensures Valid() && Since(old(w), w, claim) && (calm ==> ok && w.c == old(w).c)
      ensures released == if ok then old(released) + {SnapshotKey(org, g)} else old(released)
    {
      Pause();
      ok := *;
      ok := ok || calm;
      if ok {
        released := released + {SnapshotKey(org, g)};
      }
    }

    /** Without a slot, an untouched generation is given up at once, and one under way continues later. */
    method WithoutSlot(view: ProgressView) returns (tried: Tried)
      requires Valid() && ViewHolds(w.c, view, claim)
      modifies coordinator, `w, `jobDone, `wakeups
      ensures Valid() && !tried.Onward? && Unfinished(tried) && Woken(tried, old(wakeups))
      ensures calm && Ready(old(w).c, view.generation, claim, Now()) ==>
        Ending(w.c, tried) == SlotlessEnds(old(w).c, view.generation, Now())
    {
      ghost var w0 := w;
      Pause();
      ViewSince(w0, w, view, claim);
      var heard: bool := *;
      if !heard && !calm {
        return Thrown;
      }
      if view.next == 0 && coordinator.intents == map[] {
        ViewMayFail(w, view, claim);
        var ok := FailSnapshot(view.generation, None);
        if !ok {
          return Thrown;
        }
        ok := ScheduleContinuation();
        return if ok then Returned(Scheduled) else Thrown;
      }
      tried := ContinueRun(view.generation);
    }

    // ---- a whole run ----

    /** All Copies, then the manifest, then the finish; `expired` tells why it was given up. */
    method RunGeneration(view: ProgressView, days: seq<Day>) returns (tried: Tried, expired: bool, ghost heard: Heard)
      requires Valid() && ViewHolds(w.c, view, claim) && view.next <= view.total && days == Ordered(view.days)
      modifies coordinator, `w, `jobDone, `granted, `recorded, `started, `failed, `wakeups
      ensures Valid() && Unfinished(tried) && Woken(tried, old(wakeups))
      ensures |started| == |old(started)| + if heard.said.StartSaid? then 1 else 0
      ensures tried.Onward? ==> Past(w.c, view.generation) && view.generation in w.manifests
      ensures expired ==> tried.Thrown? && !HoldsClaim(w.c, view.generation, claim)
      ensures heard.acquired == Some(true) || granted == old(granted)
      ensures calm && Ready(old(w).c, view.generation, claim, Now()) ==>
        GenerationRun(old(w).c, w.c, view.generation, heard, tried)
    {
      expired, heard := false, Heard(None, w.c, Unasked, false);
      ghost var w0 := w;
      var acquired := AcquireSlot(view.generation);
      heard := heard.(acquired := acquired);
      if acquired.None? {
        return Thrown, false, heard;
      }
      ViewSince(w0, w, view, claim);
      if !acquired.value {
        tried := WithoutSlot(view);
        return;
      }
      tried, expired, heard := RunWithSlot(view, days);
    }

    /** The tables after a generation was run are those it ends with, given what was heard. */
    ghost predicate GenerationRun(c: State, c1: State, g: int, heard: Heard, tried: Tried) {
      && g in c.progress && Hears(c, g, claim, Now(), heard)
      && Ending(c1, tried) == GenerationEnds(c, g, claim, Now(), heard)
    }

    method RunWithSlot(view: ProgressView, days: seq<Day>) returns (tried: Tried, expired: bool, ghost heard: Heard)
      requires Valid() && ViewHolds(w.c, view, claim) && view.next <= view.total && days == Ordered(view.days)
      requires SnapshotKey(org, view.generation) in granted
      modifies coordinator, `w, `jobDone, `recorded, `started, `failed, `wakeups
      ensures Valid() && Unfinished(tried) && Woken(tried, old(wakeups)) && heard.acquired == Some(true)
      ensures |started| == |old(started)| + if heard.said.StartSaid? then 1 else 0
      ensures tried.Onward? ==> Past(w.c, view.generation) && view.generation in w.manifests
      ensures expired ==> tried.Thrown? && !HoldsClaim(w.c, view.generation, claim)
      ensures calm && Ready(old(w).c, view.generation, claim, Now()) ==>
        GenerationRun(old(w).c, w.c, view.generation, heard, tried)
    {
      expired, heard := false, Heard(Some(true), w.c, Unasked, false);
      var copies := SnapshotCopyPlans(view.generation, days);
      if copies.Err? {
        return Thrown, false, heard;
      }
      tried, expired, heard := RunPlanned(Plan(view.generation, view.days, copies.value), view);
    }

    method RunPlanned(plan: Plan, view: ProgressView) returns (tried: Tried, expired: bool, ghost heard: Heard)
      requires Valid() && IsPlan(plan) && OfPlan(view, plan) && ViewHolds(w.c, view, claim) && view.next <= view.total
      requires SnapshotKey(org, plan.g) in granted
      modifies coordinator, `w, `jobDone, `recorded, `started, `failed, `wakeups
      ensures Valid() && Unfinished(tried) && Woken(tried, old(wakeups)) && heard.acquired == Some(true)
      ensures |started| == |old(started)| + if heard.said.StartSaid? then 1 else 0
      ensures tried.Onward? ==> Past(w.c, plan.g) && plan.g in w.manifests
      ensures expired ==> tried.Thrown? && !HoldsClaim(w.c, plan.g, claim)
      ensures calm && Ready(old(w).c, plan.g, claim, Now()) ==> GenerationRun(old(w).c, w.c, plan.g, heard, tried)
    {
      expired, heard := false, Heard(Some(true), w.c, Unasked, false);
      ghost var at, said := w.c, Unasked;
      var last;
      tried, last, at, said := RunCopies(plan, view);
      heard := Heard(Some(true), at, said, false);
      if !tried.Onward? {
        return;
      }
      ghost var landed;
      tried, expired, landed := PublishGeneration(last);
      heard := heard.(landed := landed);
    }

    /** Publishes a generation whose Copies are all settled, if none of its days has left the window. */
    method PublishGeneration(view: ProgressView) returns (tried: Tried, expired: bool, ghost landed: bool)
      requires Valid() && ViewHolds(w.c, view, claim)
      modifies coordinator, `w, `jobDone, `wakeups
      ensures Valid() && Unfinished(tried) && Woken(tried, old(wakeups))
      ensures tried.Onward? ==> Past(w.c, view.generation) && view.generation in w.manifests
      ensures expired <==> exists d :: d in view.days && !(oldest <= d <= today)
      ensures expired ==> tried.Thrown? && !HoldsClaim(w.c, view.generation, claim)
      ensures calm && CanPublish(old(w).c, view.generation) ==>
        && Checked(old(w).c, view.generation, claim, Now(), false).reply.CheckResult?
        && Ending(w.c, tried) == PublishEnds(old(w).c, view.generation, claim, Now(), landed)
    {
      landed := false;
      expired := exists d :: d in view.days && !(oldest <= d <= today);
      if expired {
        ExpiredMeansLost(w, view, claim);
        return Thrown, true, false;
      }
      var ready := PrepareCheck(view, false);
      if ready.None? {
        return Thrown, false, false;
      }
      if !ready.value {
        tried := ContinueRun(view.generation);
        return;
      }
      tried, landed := StampAndPublish(view.generation);
    }

    method StampAndPublish(g: int) returns (tried: Tried, ghost landed: bool)
      requires Valid()
      modifies coordinator, `w, `jobDone
      ensures Valid() && !tried.Returned?
      ensures tried.Onward? ==> Past(w.c, g) && g in w.manifests
      ensures calm && CanPublish(old(w).c, g) ==>
        var stamped := Stamp(old(w).c, g, Now());
        Ending(w.c, tried) ==
          if landed then Ending(FinishCapture(stamped, g, Now()).(check := None), Onward) else Ending(stamped, Thrown)
    {
      landed := false;
      ghost var c := w.c;
      var ok := PrepareManifest(g);
      if !ok {
        return Thrown, false;
      }
      ok := PublishManifest(g);
      landed := ok;
      if !ok {
        return Thrown, false;
      }
      if calm && CanPublish(c, g) {
        StampedIsReady(c, g, claim, Now());
      }
      ok := FinishSnapshot(g);
      tried := if ok then Onward else Thrown;
    }

    /** After an error: a failed generation is cleaned up, one with work under way continues later. */
    method Recover(g: int, expired: bool) returns (result: RunResult)
      requires Valid() && (expired ==> !HoldsClaim(w.c, g, claim))
      modifies coordinator, `w, `jobDone, `wakeups, `released
      ensures Valid() && (result == Continued || result == Threw) && (result == Continued ==> wakeups > old(wakeups))
      ensures calm && FailedOrReady(old(w).c, g) ==> Recovered(old(w).c, w.c, g, result, old(wakeups))
    {
      var schedule := ReadSchedule();
      if schedule.None? {
        return Threw;
      }
      if schedule.value.failure.Some? && schedule.value.failure.value.generation == g {
        CleanUp(g);
        return Threw;
      }
      if calm && FailedOrReady(w.c, g) {
        HoldingView(w.c, g, claim, Now());
      }
      ghost var read;
      var latest;
      latest, read := ReadProgress(g);
      if latest.None? {
        return Threw;
      }
      result := GiveUpOrContinue(latest.value, expired);
    }

    /** The generation has failed, or it can be gone on with. */
    ghost predicate FailedOrReady(c: State, g: int) {
      (c.failure.Some? && c.failure.value.generation == g) || Ready(c, g, claim, Now())
    }

    /** A run that failed leaves these tables; it has given its slot back or will be continued. */
    ghost predicate Recovered(c: State, c1: State, g: int, result: RunResult, before: nat)
      reads this
    {
      && Outcomes(c1, result) == RecoveryEnds(c, g, Now()) && wakeups > before
      && (result.Threw? ==> SnapshotKey(org, g) in released)
    }

    method GiveUpOrContinue(latest: ProgressView, expired: bool) returns (result: RunResult)
      requires Valid() && ViewHolds(w.c, latest, claim) && latest.next <= latest.total
      requires expired ==> !HoldsClaim(w.c, latest.generation, claim)
      modifies coordinator, `w, `jobDone, `wakeups, `released
      ensures Valid() && (result == Continued || result == Threw) && (result == Continued ==> wakeups > old(wakeups))
      ensures calm && Ready(old(w).c, latest.generation, claim, Now()) ==>
        Recovered(old(w).c, w.c, latest.generation, result, old(wakeups))
    {
      ghost var w0 := w;
      Pause();
      ViewSince(w0, w, latest, claim);
      var heard: bool := *;
      if !heard && !calm {
        return Threw;
      }
      if !expired && (coordinator.intents != map[] || latest.next == latest.total) {
        result := ContinueLater(latest.generation);
        return;
      }
      RemainingMayFail(w, latest, claim, expired);
      GiveUp(latest.generation, expired);
      return Threw;
    }

    method ContinueLater(g: int) returns (result: RunResult)
      requires Valid()
      modifies coordinator, `w, `jobDone, `wakeups
      ensures Valid() && (result == Continued || result == Threw)
      ensures if result == Continued then wakeups > old(wakeups) else wakeups == old(wakeups)
      ensures calm && Holding(old(w).c, g, claim, Now()) ==> result == Continued && w.c == Paused(old(w).c, Now()).state
    {
      var tried := ContinueRun(g);
      result := if tried.Returned? then Continued else Threw;
    }

    /** Fails the generation, with the reason, and gives its slot back. */
    method GiveUp(g: int, expired: bool)
      requires Valid() && MayFail(w, g, claim)
      modifies coordinator, `w, `jobDone, `wakeups, `released
      ensures Valid() && wakeups >= old(wakeups)
      ensures calm && !expired && Ready(old(w).c, g, claim, Now()) && old(w).c.intents == map[] ==>
        && w.c == GivenUp(old(w).c, Now(), Some(Failure(g, "Snapshot failed before Copy completion", instant)))
        && wakeups > old(wakeups) && SnapshotKey(org, g) in released
    {
      var reason :=
        if expired then "Snapshot captured days expired before publication" else "Snapshot failed before Copy completion";
      var ok := FailSnapshot(g, Some(reason));
      if ok {
        CleanUp(g);
      }
    }

    /** Gives the slot back and asks for another run. */
    method CleanUp(g: int)
      requires Valid()
      modifies coordinator, `w, `jobDone, `wakeups, `released
      ensures Valid() && wakeups >= old(wakeups)
      ensures calm ==> w.c == old(w).c && wakeups > old(wakeups) && released == old(released) + {SnapshotKey(org, g)}
    {
      var ok := ReleaseSlot(g);
      if ok {
        var _ := ScheduleContinuation();
      }
    }

    // ---- admission ----

    /** Reads the counters, which also recovers an expired drain. */
    method ReadStats() returns (stats: Option<State>)
      requires Valid()
      modifies coordinator, `w, `jobDone
      ensures Valid() && (calm ==> w.c == Counted(old(w).c, Now()) && stats == Some(w.c))
    {
      var call := OnGate(CallGetStats);
      FreeStaysAllowed(w, claim, call);
      ghost var w0 := w;
      var reply, seen, _, _ := Request(call);
      stats := if reply.Some? && !reply.value.Refused? then Some(seen) else None;
      if calm {
        ReachableTables(w0);
        CountingIsServed(w0.c, Now());
      }
    }

    /** Takes over the active generation, if no other claim is live. */
    method TakeClaim() returns (admission: Admission)
      requires Valid()
      modifies coordinator, `w, `jobDone
      ensures Valid() && Welcome(w, admission, claim)
      ensures calm && old(w).c.phase.Snapshot? ==> Enters(w.c, TakeOver(old(w).c, claim, Now()), admission)
    {
      var call := OnLease(CallClaimSnapshot(claim));
      FreeStaysAllowed(w, claim, call);
      ghost var w0, at, after := w, w, w;
      var reply, seen;
      reply, seen, at, after := Request(call);
      if calm && w0.c.phase.Snapshot? {
        WorldTables(w0);
        ClaimIsServed(w0.c, claim, Now());
      }
      if reply == Some(Nothing) {
        return Turned(Retry);
      }
      if reply.None? || !reply.value.Claimed? {
        return Turned(Threw);
      }
      TakenAnswer(at, after, claim, reply.value.view);
      ViewSince(after, w, reply.value.view, claim);
      admission := Admitted(reply.value.view);
    }

    /** A run is turned away as its entry says, or admitted to the active generation, which is then ready. */
    ghost predicate Enters(c: State, entry: Entry, admission: Admission) {
      && c == entry.state
      && match admission
         case Turned(result) => entry.turned == Some(result)
         case Admitted(view) =>
           entry.turned == None && c.activeGeneration == Some(view.generation) && Ready(c, view.generation, claim, Now())
    }

    /** Captures a new generation and reads its progress. */
    method BeginGeneration() returns (admission: Admission)
      requires Valid()
      modifies coordinator, `w, `jobDone
      ensures Valid() && Welcome(w, admission, claim)
      ensures calm && Capturable(old(w).c) ==> Enters(w.c, CaptureEntry(old(w).c, claim, Now()), admission)
    {
      var reply := CallBegin();
      if reply == Some(Nothing) {
        var stats := ReadStats();
        if stats.Some? {
          return Turned(Retry);
        }
      }
      if reply.Some? && reply.value.Begun? {
        var view, _ := ReadProgress(reply.value.generation);
        if view.Some? {
          return Admitted(view.value);
        }
      }
      admission := AfterFailedBegin();
    }

    method CallBegin() returns (reply: Option<Reply>)
      requires Valid()
      modifies coordinator, `w, `jobDone
      ensures Valid() && (calm && Capturable(old(w).c) ==> Began(old(w).c, w.c, reply))
    {
      var call := OnGate(CallBeginSnapshot(claim));
      FreeStaysAllowed(w, claim, call);
      ghost var w0 := w;
      var answer, _, _, _ := Request(call);
      reply := answer;
      if calm && Capturable(w0.c) {
        WorldTables(w0);
        CaptureIsServed(w0.c, claim, Now());
      }
    }

    /** A capture was begun and is ready, or refused and the gate is not held. */
    ghost predicate Began(c: State, c1: State, reply: Option<Reply>) {
      && c1 == Step(c, OnGate(CallBeginSnapshot(claim)), Now()).state
      && reply == Some(Step(c, OnGate(CallBeginSnapshot(claim)), Now()).reply)
      && match reply.value
         case Begun(g, _) => c1.activeGeneration == Some(g) && Ready(c1, g, claim, Now())
         case Refused(_) => !Counted(c1, Now()).phase.Snapshot?
         case _ => false
    }

    /** No delivery is active and no snapshot is under way or failed. */
    predicate Capturable(c: State) {
      !c.phase.Snapshot? && c.active == map[] && c.failure.None?
    }

    /** Why a capture failed: another run has the gate, or nothing can be captured. */
    method AfterFailedBegin() returns (admission: Admission)
      requires Valid()
      modifies coordinator, `w, `jobDone
      ensures Valid() && admission.Turned? && !admission.result.Complete?
      ensures calm && !Counted(old(w).c, Now()).phase.Snapshot? ==>
        && w.c == Counted(old(w).c, Now())
        && admission == Turned(if |w.c.dirty| <= |w.c.incomplete| then Idle else Threw)
    {
      var stats := ReadStats();
      if stats.None? {
        return Turned(Threw);
      }
      if stats.value.phase.Snapshot? {
        return Turned(Retry);
      }
      return Turned(if |stats.value.dirty| <= |stats.value.incomplete| then Idle else Threw);
    }

    method CallRequest() returns (reply: Option<Reply>)
      requires Valid()
      modifies coordinator, `w, `jobDone
      ensures Valid()
      ensures calm && Requestable(old(w).c) ==>
        w.c == Closed(old(w).c, Now()) && reply == Some(IsDraining(|old(w).c.active|))
    {
      var call := OnGate(CallRequestSnapshot);
      FreeStaysAllowed(w, claim, call);
      ghost var w0 := w;
      var answer, _, _, _ := Request(call);
      reply := answer;
      if calm && Requestable(w0.c) {
        WorldTables(w0);
        DrainIsServed(w0.c, Now());
      }
    }

    /** The gate is open, a complete day is dirty and no failure is recorded. */
    predicate Requestable(c: State) {
      c.phase.Open? && c.failure.None? && |c.dirty| > |c.incomplete|
    }

    /** Closes the gate if it is open, and captures once no delivery is active. */
    method DrainAndBegin(stats: State) returns (admission: Admission)
      requires Valid()
      modifies coordinator, `w, `jobDone
      ensures Valid() && Welcome(w, admission, claim)
      ensures calm && stats == old(w).c && !stats.phase.Snapshot? && stats.failure.None? ==>
        Enters(w.c, DrainEntry(stats, claim, Now()), admission)
    {
      var deliveries := |stats.active|;
      if stats.phase.Open? {
        if |stats.dirty| <= |stats.incomplete| {
          return Turned(Idle);
        }
        var reply := CallRequest();
        if reply == Some(Nothing) {
          return Turned(Retry);
        }
        if reply.None? || !reply.value.IsDraining? {
          return Turned(Threw);
        }
        deliveries := reply.value.activeDeliveries;
      }
      if deliveries > 0 {
        return Turned(Retry);
      }
      admission := BeginGeneration();
    }

    /** Admits a run, or turns it away. */
    method Admit() returns (admission: Admission, ghost asleep: bool)
      requires Valid()
      modifies coordinator, `w, `jobDone
      ensures Valid() && Welcome(w, admission, claim)
      ensures calm ==> Enters(w.c, EntryOf(old(w).c, claim, Now(), asleep), admission)
    {
      asleep := false;
      var stats := ReadStats();
      if stats.None? {
        return Turned(Threw), false;
      }
      if stats.value.erasureStartedAt.Some? {
        return Turned(Idle), false;
      }
      var schedule := ReadSchedule();
      if schedule.None? {
        return Turned(Threw), false;
      }
      asleep := schedule.value.asleep;
      if schedule.value.failure.Some? || (schedule.value.check.Some? && schedule.value.check.value.blocked.Some?) {
        return Turned(Blocked), asleep;
      }
      if schedule.value.asleep {
        return Turned(Scheduled), asleep;
      }
      if stats.value.phase.Snapshot? {
        admission := TakeClaim();
      } else {
        admission := DrainAndBegin(stats.value);
      }
    }

    /**
     * One run. Whatever fails, is lost or is taken over meanwhile, the world stays one that allowed
     * steps lead to, so everything proved of those holds; and a run that reports a complete snapshot
     * has published and finished its generation. A run starts at most one Copy. A calm run ends as the
     * tables it found and the answers of the Copy service say.
     */
    method Run() returns (result: RunResult, ghost asleep: bool, ghost heard: Heard)
      requires Valid()
      modifies coordinator, `w, `jobDone, `granted, `recorded, `started, `failed, `wakeups, `released
      ensures Valid() && |started| <= |old(started)| + 1
      ensures result.Complete? ==> Past(w.c, result.generation) && result.generation in w.manifests
      ensures calm ==> RunTurn(old(w).c, w.c, claim, Now(), asleep, heard, result)
    {
      heard := Heard(None, w.c, Unasked, false);
      var admission;
      admission, asleep := Admit();
      if admission.Turned? {
        return admission.result, asleep, heard;
      }
      var view := admission.view;
      var days := ListDays(view.days);
      if calm {
        HoldingView(w.c, view.generation, claim, Now());
      }
      var traced, _ := ReadProgress(view.generation);
      if traced.None? {
        return Threw, asleep, heard;
      }
      var scheduled := ScheduleContinuation();
      if !scheduled {
        return Threw, asleep, heard;
      }
      result, heard := RunAdmitted(view, days);
    }

    method RunAdmitted(view: ProgressView, days: seq<Day>) returns (result: RunResult, ghost heard: Heard)
      requires Valid() && ViewHolds(w.c, view, claim) && view.next <= view.total && days == Ordered(view.days)
      modifies coordinator, `w, `jobDone, `granted, `recorded, `started, `failed, `wakeups, `released
      ensures Valid() && |started| <= |old(started)| + 1
      ensures result.Complete? ==> Past(w.c, result.generation) && result.generation in w.manifests
      ensures calm && Ready(old(w).c, view.generation, claim, Now()) ==>
        AdmittedRun(old(w).c, w.c, view.generation, heard, result)
    {
      ghost var c := w.c;
      var tried, expired;
      tried, expired, heard := RunGeneration(view, days);
      if calm && Ready(c, view.generation, claim, Now()) && tried.Thrown? {
        ThrownIsFailedOrReady(c, w.c, view.generation, claim, Now(), heard);
      }
      match tried {
        case Returned(returned) => result := returned;
        case Thrown => result := Recover(view.generation, expired);
        case Onward => result := Conclude(view.generation);
      }
    }

    ghost predicate AdmittedRun(c: State, c1: State, g: int, heard: Heard, result: RunResult) {
      && g in c.progress && Hears(c, g, claim, Now(), heard)
      && Outcomes(c1, result) == AdmittedEnds(c, g, claim, Now(), heard)
    }

    /** Gives the slot back and asks for another run when complete dirty days are left. */
    method Conclude(g: int) returns (result: RunResult)
      requires Valid() && Past(w.c, g) && g in w.manifests
      modifies coordinator, `w, `jobDone, `wakeups, `released
      ensures Valid()
      ensures result.Complete? ==> Past(w.c, result.generation) && result.generation in w.manifests
      ensures result.Complete? ==> SnapshotKey(org, g) in released
      ensures calm ==> result == Complete(g) && w.c == Counted(old(w).c, Now())
      ensures calm && |w.c.dirty| > |w.c.incomplete| ==> wakeups > old(wakeups)
    {
      ghost var w0 := w;
      var freed := ReleaseSlot(g);
      assert Past(w.c, g) && w0.manifests <= w.manifests;
      if !freed {
        return Threw;
      }
      var stats := ReadFinalStats(g);
      if stats.None? {
        return Threw;
      }
      ghost var w1 := w;
      if |stats.value.dirty| > |stats.value.incomplete| {
        var scheduled := ScheduleContinuation();
        if !scheduled {
          return Threw;
        }
      }
      assert Past(w.c, g) && w1.manifests <= w.manifests;
      result := Complete(g);
    }

    method ReadFinalStats(g: int) returns (stats: Option<State>)
      requires Valid() && Past(w.c, g) && g in w.manifests
      modifies coordinator, `w, `jobDone
      ensures Valid() && Past(w.c, g) && g in w.manifests
      ensures calm ==> w.c == Counted(old(w).c, Now()) && stats == Some(w.c)
    {
      var call := OnGate(CallGetStats);
      FreeStaysAllowed(w, claim, call);
      ghost var w0, at, after := w, w, w;
      var reply, seen;
      reply, seen, at, after := Request(call);
      stats := if reply.Some? && !reply.value.Refused? then Some(seen) else None;
      assert Past(at.c, g) && w0.manifests <= at.manifests;
      StatsEndNothing(at, after, reply, g);
      assert Past(w.c, g) && after.manifests <= w.manifests;
      if calm {
        ReachableTables(w0);
        CountingIsServed(w0.c, Now());
      }
    }
  }

  /** Whether a run may go on with a generation. */
  datatype Admission = Turned(result: RunResult) | Admitted(view: ProgressView)

  ghost predicate Welcome(w: World, admission: Admission, claim: string) {
    match admission
    case Turned(result) => !result.Complete?
    case Admitted(view) => ViewHolds(w.c, view, claim) && view.next <= view.total
  }

  lemma TakenAnswer(at: World, after: World, claim: string, view: ProgressView)
    requires Reachable(at) && Answered(at, OnLease(CallClaimSnapshot(claim)), after, Some(Claimed(view)))
    ensures ViewHolds(after.c, view, claim) && view.next <= view.total
  {
    var clock :| ServedAs(at, OnLease(CallClaimSnapshot(claim)), clock, after, Some(Claimed(view)));
    ReachableTables(at);
    TakenView(at.c, claim, clock);
  }

  lemma StatsEndNothing(at: World, after: World, reply: Option<Reply>, g: int)
    requires Reachable(at) && Answered(at, OnGate(CallGetStats), after, reply) && Past(at.c, g)
    ensures Past(after.c, g) && after.manifests == at.manifests
  {
    if after != at {
      var clock :| ServedAs(at, OnGate(CallGetStats), clock, after, reply);
      ReachableTables(at);
      CountingEndsNothing(at.c, clock, g);
    }
  }

  lemma CountingEndsNothing(c: State, clock: Clock, g: int)
    requires GateInv(c) && Past(c, g)
    ensures Past(Counted(c, clock), g)
  {
    RecoverShape(c, clock.now);
  }

  /** Only finishing the snapshot completes a run. */
  predicate Unfinished(tried: Tried) {
    tried.Returned? ==> !tried.result.Complete?
  }

  /** The view is about the plan's generation and its days. */
  predicate OfPlan(view: ProgressView, plan: Plan) {
    view.generation == plan.g && view.days == plan.days && view.total == CopyCount(|plan.days|)
  }

  /** A generation may be failed while Copies remain; a call without the claim is refused anyway. */
  predicate MayFail(w: World, g: int, claim: string) {
    HoldsClaim(w.c, g, claim) ==> Cursor(w.c) < CopyCount(CountCaptured(w.c, g))
  }

  // ---- lemmas about single calls ----

  lemma StampedByManifest(at: World, after: World, g: int, claim: string, view: ProgressView)
    requires Reachable(at) && Answered(at, OnGate(CallPrepareManifest(g, claim)), after, Some(Claimed(view)))
    requires view.manifestAt.Some?
    ensures Stamped(after.c, g)
  {
    var clock :| ServedAs(at, OnGate(CallPrepareManifest(g, claim)), clock, after, Some(Claimed(view)));
    ReachableTables(at);
    RecoverShape(at.c, clock.now);
    ManifestShape(at.c, g, claim, clock);
    ClaimHolder(at.c, g, claim, clock);
  }

  lemma FinishStaysAllowed(w: World, claim: string, g: int)
    requires g in w.manifests
    ensures StaysAllowed(w, claim, OnGate(CallFinishSnapshot(g, claim)))
  {
    forall v | Since(w, v, claim) && Reachable(v) ensures Allowed(v, OnGate(CallFinishSnapshot(g, claim))) {}
  }

  lemma FinishEnds(at: World, after: World, g: int, claim: string, reply: Reply)
    requires Reachable(at) && Answered(at, OnGate(CallFinishSnapshot(g, claim)), after, Some(reply)) && reply.Finished?
    ensures Past(after.c, g)
  {
    var clock :| ServedAs(at, OnGate(CallFinishSnapshot(g, claim)), clock, after, Some(reply));
    ReachableTables(at);
    ActiveGenerationIsLast(at.c);
    StepMoves(at.c, OnGate(CallFinishSnapshot(g, claim)), clock);
    FinishedGeneration(at.c, g, claim, clock);
  }

  lemma FinishedGeneration(c: State, g: int, claim: string, clock: Clock)
    ensures
      var reply := CoordinatorModel.FinishSnapshot(c, g, claim, clock).reply;
      reply.Finished? ==> reply.generation == g
  {}

  lemma MayFailSince(w: World, w': World, g: int, claim: string)
    requires Since(w, w', claim) && MayFail(w, g, claim)
    ensures MayFail(w', g, claim)
  {
    if HoldsClaim(w'.c, g, claim) {
      assert HoldsClaim(w.c, g, claim);
    }
  }

  lemma FailStaysAllowed(w: World, claim: string, g: int, reason: Option<string>)
    requires MayFail(w, g, claim)
    ensures StaysAllowed(w, claim, OnGate(CallFailSnapshot(g, claim, reason)))
  {
    forall v | Since(w, v, claim) && Reachable(v) ensures Allowed(v, OnGate(CallFailSnapshot(g, claim, reason))) {
      MayFailSince(w, v, g, claim);
    }
  }

  lemma ViewMayFail(w: World, view: ProgressView, claim: string)
    requires ViewHolds(w.c, view, claim) && view.next < view.total
    ensures MayFail(w, view.generation, claim)
  {}

  lemma RemainingMayFail(w: World, view: ProgressView, claim: string, expired: bool)
    requires ViewHolds(w.c, view, claim)
    requires if expired then !HoldsClaim(w.c, view.generation, claim) else view.next < view.total
    ensures MayFail(w, view.generation, claim)
  {
    if !expired {
      ViewMayFail(w, view, claim);
    }
  }

  /** Captured days stay in the fixed window, so a runner that finds one outside has lost its claim. */
  lemma ExpiredMeansLost(w: World, view: ProgressView, claim: string)
    requires Reachable(w) && ViewHolds(w.c, view, claim)
    requires exists d :: d in view.days && !(w.oldest <= d <= w.today)
    ensures !HoldsClaim(w.c, view.generation, claim)
  {
    ReachableWorldInv(w);
    if HoldsClaim(w.c, view.generation, claim) {
      CapturedIsInWindow(w, view.generation);
    }
  }

  lemma CapturedIsInWindow(w: World, g: int)
    requires GenerationInv(w.c) && InWindow(w.c, w.oldest, w.today) && w.c.activeGeneration == Some(g)
    ensures g in w.c.captured && forall d :: d in w.c.captured[g] ==> w.oldest <= d <= w.today
  {
    forall d | d in w.c.captured[g] ensures w.oldest <= d <= w.today {
      assert d in w.c.dirty && Within(d, w.oldest, w.today);
    }
  }

  lemma AssertMovesNothing(at: World, after: World, reply: Option<Reply>, view: ProgressView, claim: string)
    requires Answered(at, OnLease(CallAssertActive(view.generation, claim)), after, reply) && ViewHolds(at.c, view, claim)
    ensures ViewHolds(after.c, view, claim)
  {
    if after != at {
      var clock :| ServedAs(at, OnLease(CallAssertActive(view.generation, claim)), clock, after, reply);
      ReadOnlyLeaseCalls(at.c, view.generation, claim, clock);
    }
  }

  lemma KeyIsExpected(plan: Plan, i: nat)
    requires IsPlan(plan) && i < CopyCount(|plan.days|)
    ensures KeyAt(plan.g, |plan.days|, i) == Some(KeyOf(plan, i))
  {
    PlanAgreesWithCursor(plan.g, Ordered(plan.days), plan.copies, i);
  }

  /** A runner that may go on may start or check the planned Copy. */
  lemma PlannedIsReady(c: State, plan: Plan, view: ProgressView, claim: string, clock: Clock)
    requires Ready(c, plan.g, claim, clock) && IsPlan(plan) && OfPlan(view, plan) && ViewHolds(c, view, claim)
    requires view.next < CopyCount(|plan.days|)
    ensures ReadyFor(c, plan.g, claim, clock, KeyOf(plan, view.next)) && c.progress[plan.g].next == view.next
  {
    KeyIsExpected(plan, view.next);
    PlannedKeyIsValid(plan.g, |plan.days|, view.next);
  }

  /** What the runner knows of the tables in its world. */
  lemma WorldTables(w: World)
    requires Reachable(w)
    ensures Inv(w.c) && InWindow(w.c, w.oldest, w.today) && w.c.erasureStartedAt.None?
  {
    ReachableWorldInv(w);
  }

  lemma QuietKeepsClaim(at: World, call: Call, after: World, reply: Option<Reply>, g: int, claim: string)
    requires Reachable(at) && Answered(at, call, after, reply) && Quiet(call)
    ensures HoldsClaim(after.c, g, claim) ==> HoldsClaim(at.c, g, claim)
  {
    if after != at {
      var clock :| ServedAs(at, call, clock, after, reply);
      ReachableTables(at);
      QuietKeepsHolder(at.c, call, clock);
    }
  }

  lemma ProgressAnswer(at: World, g: int, claim: string, after: World, view: ProgressView)
    requires Reachable(at) && Answered(at, OnLease(CallGetProgress(g, claim)), after, Some(Claimed(view)))
    ensures view.generation == g && HoldsClaim(at.c, g, claim) && view.next <= view.total
    ensures ViewHolds(at.c, view, claim) && ViewHolds(after.c, view, claim)
  {
    var clock :| ServedAs(at, OnLease(CallGetProgress(g, claim)), clock, after, Some(Claimed(view)));
    ReachableTables(at);
    ClaimedView(at.c, g, claim, clock);
  }

  /** Two views that the same claim gave without a settlement between them are alike. */
  lemma ViewsAgree(w: World, read: World, expected: ProgressView, view: ProgressView, claim: string)
    requires Since(w, read, claim) && ViewHolds(w.c, expected, claim) && ViewHolds(read.c, view, claim)
    requires view.generation == expected.generation && HoldsClaim(read.c, view.generation, claim)
    ensures view.next == expected.next && view.days == expected.days && view.total == expected.total
  {
    assert HoldsClaim(w.c, view.generation, claim);
  }

  /** The one outstanding intent, if it is the expected one. */
  method RequireCurrent(intents: map<CopyKey, Intent>, key: CopyKey) returns (read: IntentRead)
    ensures read.NoIntent? <==> intents == map[]
    ensures read.Outstanding? <==> intents.Keys == {key}
    ensures read.Outstanding? ==> intents[key] == read.intent
    ensures !read.Unread?
  {
    if intents == map[] {
      return NoIntent;
    }
    OneIntent(intents, key);
    if |intents| > 1 || key !in intents {
      return Conflicting;
    }
    assert |intents.Keys - {key}| == 0;
    return Outstanding(intents[key]);
  }

  lemma OneIntent(intents: map<CopyKey, Intent>, key: CopyKey)
    ensures intents.Keys == {key} ==> |intents| == 1 && key in intents
  {
    if intents.Keys == {key} {
      assert |intents.Keys| == |intents|;
    }
  }

  /** While the claim stands, no intent but the one at the cursor is outstanding. */
  lemma HolderSeesCursor(c: State, view: ProgressView, claim: string, key: CopyKey)
    requires Inv(c) && HoldsClaim(c, view.generation, claim) && ViewHolds(c, view, claim)
    requires KeyAt(view.generation, |view.days|, view.next) == Some(key)
    ensures c.intents == map[] || c.intents.Keys == {key}
  {
    forall k | k in c.intents ensures k == key {}
    if c.intents != map[] {
      assert c.intents.Keys <= {key};
    }
  }

  /** An accepted intent is for the planned key, and for the days of the planned chunk. */
  lemma RecordedAsPlanned(at: World, after: World, plan: Plan, i: nat, claim: string, startedAt: int)
    requires Reachable(at) && IsPlan(plan) && PlanHolds(at.c, plan.g, claim, plan.days) && i < CopyCount(|plan.days|)
    requires Answered(at, OnCopy(CallRecordIntent(KeyOf(plan, i), claim, i, startedAt)), after, Some(Done))
    ensures CopyDays(at.c, Cursor(at.c)) == DaySet(CopyOf(plan, i).days)
    ensures KeyAt(plan.g, CountCaptured(at.c, plan.g), Cursor(at.c)) == Some(KeyOf(plan, i))
  {
    var key := KeyOf(plan, i);
    var clock :| ServedAs(at, OnCopy(CallRecordIntent(key, claim, i, startedAt)), clock, after, Some(Done));
    RecordIntentShape(at.c, key, claim, i, startedAt, clock);
    AtCursor(at.c, key, claim, i, clock);
    PlannedDays(at.c, plan.g, plan.days, plan.copies, i);
  }

  lemma AttachKeepsKeys(c: State, key: CopyKey, claim: string, i: int, job: string, clock: Clock)
    ensures
      var c1 := AttachJob(c, key, claim, i, job, clock).state;
      && c1.intents.Keys == c.intents.Keys && c1.progress == c.progress && c1.captured == c.captured
      && c1.activeGeneration == c.activeGeneration
  {
    AttachToShape(c, key, job);
    AttachShape(c, key, claim, i, job, clock);
  }

  lemma AttachMovesNothing(
    at: World, after: World, reply: Option<Reply>, view: ProgressView, key: CopyKey, claim: string, job: string)
    requires Answered(at, OnCopy(CallAttachJob(key, claim, view.next, job)), after, reply)
    requires ViewHolds(at.c, view, claim)
    ensures ViewHolds(after.c, view, claim)
    ensures RanAny(at, key, claim) ==> RanAny(after, key, claim)
  {
    if after != at {
      var clock :| ServedAs(at, OnCopy(CallAttachJob(key, claim, view.next, job)), clock, after, reply);
      AttachKeepsKeys(at.c, key, claim, view.next, job, clock);
    }
  }

  lemma SettlementStaysAllowed(w: World, claim: string, key: CopyKey, i: nat, job: string, succeeded: bool)
    requires succeeded ==> Ran(w, key, claim, job)
    ensures StaysAllowed(w, claim, OnCopy(CallSettleIntent(key, claim, i, job, succeeded)))
  {
    forall v | Since(w, v, claim) && Reachable(v) ensures Allowed(v, OnCopy(CallSettleIntent(key, claim, i, job, succeeded))) {
      RanSince(w, v, key, claim, job);
    }
  }

  lemma SettledAdvances(at: World, after: World, view: ProgressView, key: CopyKey, claim: string, job: string)
    requires Reachable(at) && ViewHolds(at.c, view, claim) && key.generation == view.generation
    requires Answered(at, OnCopy(CallSettleIntent(key, claim, view.next, job, true)), after, Some(Done))
    ensures ViewHolds(after.c, view.(next := view.next + 1), claim)
  {
    var clock :| ServedAs(at, OnCopy(CallSettleIntent(key, claim, view.next, job, true)), clock, after, Some(Done));
    SettleShape(at.c, key, claim, view.next, job, true, clock);
    AtCursor(at.c, key, claim, view.next, clock);
  }

  lemma RecoveryMovesNothing(
    at: World, after: World, reply: Option<Reply>, call: Call, view: ProgressView, claim: string)
    requires Reachable(at) && Answered(at, call, after, reply) && call.OnRecovery? && ViewHolds(at.c, view, claim)
    ensures ViewHolds(after.c, view, claim)
  {
    if after != at {
      var clock :| ServedAs(at, call, clock, after, reply);
      ReachableTables(at);
      RecoveryUntouched(at.c, call.recovery, claim, clock);
    }
  }
}
