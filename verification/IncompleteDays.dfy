/**
 * Resolving incomplete days. The coordinator accepts the call for any incomplete days; whether it is
 * safe depends on the store. This gives the exact condition, what follows when it is met, and a run
 * in which it is not met and a fact ends up published on two days.
 */
module IncompleteDays {
  import opened Contract
  import opened CopyPlan
  import opened CoordinatorModel
  import opened CoordinatorInvariants
  import opened CoordinatorRuns
  import opened DirtyGraphSelection
  import opened FactStore
  import opened Publication
  import opened PublicationInvariants
  import opened PublicationSnapshots
  import opened PublicationCalls
  import opened PublicationRuns
  import opened SnapshotRounds
  import DayGraph

  // ---- the condition ----

  function ResolveCall(days: seq<Day>): Call {
    OnDelivery(CallResolveIncompleteDays(days))
  }

  lemma ResolveShapeHere(w: World, days: seq<Day>, clock: Clock)
    requires Step(w.c, ResolveCall(days), clock).reply.DaysResolved?
    requires w.writer.Some? ==> w.writer.value.id in w.c.active
    ensures
      var w1 := AfterServe(w, ResolveCall(days), clock);
      && w1.c == w.c.(incomplete := w.c.incomplete - DaySetOf(days)) && w1.writer == w.writer && w1.store == w.store
      && DaySetOf(days) <= w.c.incomplete
  {}

  /**
   * The exact condition for an accepted call: the facts stay traceable if and only if every fact live
   * on a resolved day is indexed there or about to be buried there.
   */
  lemma ResolveKeepsFactsIff(w: World, days: seq<Day>, clock: Clock)
    requires WorldInv(w) && Step(w.c, ResolveCall(days), clock).reply.DaysResolved?
    ensures StrayInv(AfterServe(w, ResolveCall(days), clock)) <==> Resolvable(w, DaySetOf(days))
  {
    ResolveShapeHere(w, days, clock);
    var w1 := AfterServe(w, ResolveCall(days), clock);
    if StrayInv(w1) {
      forall key, d | d in DaySetOf(days) && Live(w.store, key, d)
        ensures (key in w.store.index && w.store.index[key].day == d) ||
          (w.writer.Some? && w.writer.value.planned && TombAt(w.writer.value.rows, key, d))
      {
        assert Live(w1.store, key, d) && d !in w1.c.incomplete;
      }
    }
  }

  /** If it is met, no continuation ever shows a fact on two days. */
  lemma ResolvedSafely(w: World, days: seq<Day>, clock: Clock, run: seq<Action>)
    requires WorldInv(w) && SameWindow(w, clock) && Resolvable(w, DaySetOf(days))
    requires IsRun(AfterServe(w, ResolveCall(days), clock), run)
    ensures Unique(End(AfterServe(w, ResolveCall(days), clock), run))
  {
    assert Enabled(w, Serve(ResolveCall(days), clock));
    NextKeepsInv(w, Serve(ResolveCall(days), clock));
    RunKeepsInv(AfterServe(w, ResolveCall(days), clock), run);
  }

  // ---- carrying a snapshot through, in the world ----

  /** What is left of the invariant when facts may be live on two days. */
  ghost predicate Workable(w: World) {
    Inv(w.c) && CopiesInv(w) && w.writer.None?
  }

  /** An enabled run of calls and Copy jobs leads from one world to another, and changes no fact. */
  ghost predicate Leads(w: World, run: seq<Action>, w1: World) {
    && IsRun(w, run) && End(w, run) == w1 && SameFacts(w, w1)
    && forall a :: a in run ==> a.Serve? || a.RunCopy?
  }

  predicate SameFacts(w: World, w1: World) {
    w1.store == w.store && w1.oldest == w.oldest && w1.today == w.today && w1.writer == w.writer
  }

  lemma LeadsNowhere(w: World)
    ensures Leads(w, [], w)
  {}

  lemma LeadsOne(w: World, a: Action, w1: World)
    requires Enabled(w, a) && Next(w, a) == w1 && SameFacts(w, w1) && (a.Serve? || a.RunCopy?)
    ensures Leads(w, [a], w1)
  {
    assert [a][1..] == [];
    assert IsRun(w1, []) && End(w1, []) == w1;
  }

  lemma {:induction false} RunConcat(w: World, a: seq<Action>, b: seq<Action>)
    requires IsRun(w, a) && IsRun(End(w, a), b)
    ensures IsRun(w, a + b) && End(w, a + b) == End(End(w, a), b)
    decreases |a|
  {
    if a == [] {
      assert a + b == b;
    } else {
      assert (a + b)[1..] == a[1..] + b;
      RunConcat(Next(w, a[0]), a[1..], b);
    }
  }

  lemma LeadsOn(w: World, a: seq<Action>, w1: World, b: seq<Action>, w2: World)
    requires Leads(w, a, w1) && Leads(w1, b, w2)
    ensures Leads(w, a + b, w2)
  {
    RunConcat(w, a, b);
  }

  lemma ServeIsWorkable(w: World, call: Call, clock: Clock)
    requires Workable(w) && Allowed(w, call)
    ensures Workable(AfterServe(w, call, clock))
  {
    var out := Step(w.c, call, clock);
    StepKeepsInv(w.c, call, clock);
    StepMoves(w.c, call, clock);
    DoneNeedsJob(w, call, out);
    IdleGates(w.c);
    IdleGates(out.state);
    ServeKeepsCopies(w, call, out, AfterServe(w, call, clock));
  }

  lemma JobIsWorkable(w: World)
    requires Workable(w) && Enabled(w, RunCopy)
    ensures Workable(AfterCopy(w))
  {
    forall i: nat | i <= Cursor(w.c) ensures SlotsCurrent(AfterCopy(w), i) {
      CopyMakesSlotsCurrent(w, i);
    }
  }

  lemma {:induction false} LeadsToWorkable(w: World, run: seq<Action>)
    requires Workable(w) && IsRun(w, run) && forall a :: a in run ==> a.Serve? || a.RunCopy?
    ensures Workable(End(w, run))
    decreases |run|
  {
    if run != [] {
      if run[0].Serve? {
        ServeIsWorkable(w, run[0].call, run[0].clock);
      } else {
        JobIsWorkable(w);
      }
      LeadsToWorkable(Next(w, run[0]), run[1..]);
    }
  }

  /** The world once a call has left these tables, without a writer. */
  function Served(w: World, c1: State): World {
    w.(c := c1, jobDone := w.jobDone && c1.intents.Keys == w.c.intents.Keys)
  }

  lemma ServeLeads(w: World, call: Call, clock: Clock, c1: State) returns (run: seq<Action>)
    requires w.writer.None? && SameWindow(w, clock) && Allowed(w, call) && Step(w.c, call, clock).state == c1
    ensures Leads(w, run, Served(w, c1))
  {
    run := [Serve(call, clock)];
    LeadsOne(w, run[0], Served(w, c1));
  }

  /** The job of the outstanding Copy runs. */
  lemma JobLeads(w: World) returns (run: seq<Action>, w1: World)
    requires w.c.activeGeneration.Some? && w.c.intents != map[] && !w.jobDone
    ensures Leads(w, run, w1) && w1.jobDone && w1.c == w.c
  {
    w1 := AfterCopy(w);
    run := [RunCopy];
    LeadsOne(w, RunCopy, w1);
  }

  /** No writer, no job that has run, and the clock inside the window. */
  predicate Steady(w: World, clock: Clock) {
    w.writer.None? && SameWindow(w, clock) && !w.jobDone
  }

  lemma RecordLeads(w: World, g: int, claim: string, clock: Clock, key: CopyKey) returns (run: seq<Action>)
    requires Steady(w, clock) && w.c.intents == map[] && HoldsKey(w.c, g, claim, clock, key)
    ensures Leads(w, run, Served(w, Recorded(w.c, g, clock, key)))
  {
    AcceptsRecord(w.c, g, claim, clock, key);
    var record := OnCopy(CallRecordIntent(key, claim, w.c.progress[g].next, clock.now));
    run := ServeLeads(w, record, clock, Recorded(w.c, g, clock, key));
  }

  /** The one outstanding Copy has run. */
  predicate HasRun(w: World, g: int, claim: string, clock: Clock, key: CopyKey, job: Option<string>) {
    && w.writer.None? && SameWindow(w, clock) && w.jobDone && HoldsKey(w.c, g, claim, clock, key)
    && key in w.c.intents && w.c.intents[key].job == job && w.c.intents - {key} == map[]
  }

  lemma AttachLeads(w: World, g: int, claim: string, clock: Clock, key: CopyKey) returns (run: seq<Action>)
    requires HasRun(w, g, claim, clock, key, None)
    ensures Leads(w, run, w.(c := Attached(w.c, key, "job")))
  {
    AcceptsAttach(w.c, g, claim, clock, key, "job");
    var c1 := Attached(w.c, key, "job");
    assert c1.intents.Keys == w.c.intents.Keys;
    run := ServeLeads(w, OnCopy(CallAttachJob(key, claim, w.c.progress[g].next, "job")), clock, c1);
  }

  lemma AttachedHasRun(w: World, g: int, claim: string, clock: Clock, key: CopyKey)
    requires HasRun(w, g, claim, clock, key, None)
    ensures
      var w1 := w.(c := Attached(w.c, key, "job"));
      && HasRun(w1, g, claim, clock, key, Some("job")) && w1.c.progress == w.c.progress
      && AtPosition(w1.c, g, w.c.progress[g].next + 1) == AtPosition(w.c, g, w.c.progress[g].next + 1)
  {
    AttachedFacts(w.c, g, claim, clock, key, "job");
  }

  lemma SettleLeads(w: World, g: int, claim: string, clock: Clock, key: CopyKey) returns (run: seq<Action>)
    requires HasRun(w, g, claim, clock, key, Some("job"))
    ensures Leads(w, run, w.(c := AtPosition(w.c, g, w.c.progress[g].next + 1), jobDone := false))
  {
    AcceptsSettle(w.c, g, claim, clock, key, "job");
    var c1 := AtPosition(w.c, g, w.c.progress[g].next + 1);
    run := ServeLeads(w, OnCopy(CallSettleIntent(key, claim, w.c.progress[g].next, "job", true)), clock, c1);
    assert key !in c1.intents.Keys && key in w.c.intents.Keys;
  }

  /** A Copy whose job has run gets the job attached and is settled as done. */
  lemma RanLeads(w: World, g: int, claim: string, clock: Clock, key: CopyKey) returns (run: seq<Action>)
    requires HasRun(w, g, claim, clock, key, None)
    ensures Leads(w, run, w.(c := AtPosition(w.c, g, w.c.progress[g].next + 1), jobDone := false))
  {
    var attached := w.(c := Attached(w.c, key, "job"));
    var attach := AttachLeads(w, g, claim, clock, key);
    AttachedHasRun(w, g, claim, clock, key);
    var settle := SettleLeads(attached, g, claim, clock, key);
    LeadsOn(w, attach, attached, settle, attached.(c := AtPosition(w.c, g, w.c.progress[g].next + 1), jobDone := false));
    run := attach + settle;
  }

  /** The job of the Copy at the cursor runs. */
  lemma OutstandingRuns(w: World, g: int, claim: string, clock: Clock, key: CopyKey) returns (run: seq<Action>, w1: World)
    requires Steady(w, clock) && HoldsKey(w.c, g, claim, clock, key)
    requires key in w.c.intents && w.c.intents[key].job.None? && w.c.intents - {key} == map[]
    ensures Leads(w, run, w1) && HasRun(w1, g, claim, clock, key, None) && w1.c == w.c
  {
    run, w1 := JobLeads(w);
  }

  /** An outstanding Copy runs, gets its job attached and is settled as done. */
  lemma OutstandingLeads(w: World, g: int, claim: string, clock: Clock, key: CopyKey) returns (run: seq<Action>, w1: World)
    requires Steady(w, clock) && HoldsKey(w.c, g, claim, clock, key)
    requires key in w.c.intents && w.c.intents[key].job.None? && w.c.intents - {key} == map[]
    ensures Leads(w, run, w1) && Steady(w1, clock) && w1.c == AtPosition(w.c, g, w.c.progress[g].next + 1)
  {
    var job, ran := OutstandingRuns(w, g, claim, clock, key);
    var c1 := AtPosition(w.c, g, w.c.progress[g].next + 1);
    var rest := RanLeads(ran, g, claim, clock, key);
    w1 := ran.(c := c1, jobDone := false);
    LeadsOn(w, job, ran, rest, w1);
    run := job + rest;
  }

  lemma CopyLeads(w: World, g: int, claim: string, clock: Clock) returns (run: seq<Action>, w1: World)
    requires Steady(w, clock) && w.c.intents == map[]
    requires Holding(w.c, g, claim, clock) && Plannable(g, CountCaptured(w.c, g))
    requires w.c.progress[g].next < CopyCount(CountCaptured(w.c, g))
    ensures Leads(w, run, w1) && Steady(w1, clock) && w1.c == AtPosition(w.c, g, w.c.progress[g].next + 1)
  {
    var key := KeyAt(g, CountCaptured(w.c, g), w.c.progress[g].next).value;
    PlannedKeyIsValid(g, CountCaptured(w.c, g), w.c.progress[g].next);
    var record := RecordLeads(w, g, claim, clock, key);
    RecordedFacts(w.c, g, claim, clock, key);
    var recorded := Served(w, Recorded(w.c, g, clock, key));
    var rest;
    rest, w1 := OutstandingLeads(recorded, g, claim, clock, key);
    LeadsOn(w, record, recorded, rest, w1);
    run := record + rest;
  }

  lemma {:induction false} CopiesLead(w: World, g: int, claim: string, clock: Clock) returns (run: seq<Action>, w1: World)
    requires Steady(w, clock) && w.c.intents == map[]
    requires Holding(w.c, g, claim, clock) && CursorOnly(w.c, g) && Plannable(g, CountCaptured(w.c, g))
    ensures Leads(w, run, w1) && Steady(w1, clock) && CopiedTo(w.c, w1.c, g)
    decreases CopyCount(CountCaptured(w.c, g)) - w.c.progress[g].next
  {
    if w.c.progress[g].next == CopyCount(CountCaptured(w.c, g)) {
      NothingOutstandingAtEnd(w.c, g);
      LeadsNowhere(w);
      run, w1 := [], w;
    } else {
      var first, next := CopyLeads(w, g, claim, clock);
      NextPosition(w.c, g, claim, clock);
      var rest;
      rest, w1 := CopiesLead(next, g, claim, clock);
      LeadsOn(w, first, next, rest, w1);
      run := first + rest;
    }
  }

  lemma StampLeads(w: World, g: int, claim: string, clock: Clock) returns (run: seq<Action>, w1: World)
    requires Steady(w, clock) && Holding(w.c, g, claim, clock) && CaptureRetained(w.c, clock)
    requires w.c.progress[g].next == CopyCount(CountCaptured(w.c, g))
    ensures Leads(w, run, w1) && ManifestReady(w1.c) && w1.c.activeGeneration == Some(g) && w1.c.captured == w.c.captured
  {
    AcceptsManifest(w.c, g, claim, clock);
    w1 := Served(w, Stamp(w.c, g, clock));
    run := ServeLeads(w, OnGate(CallPrepareManifest(g, claim)), clock, w1.c);
  }

  /** Between rounds, in the window, with nothing that keeps the next selection from being captured. */
  ghost predicate CanCapture(w: World, clock: Clock) {
    && Steady(w, clock) && GenerationInv(w.c) && Kept(w) && w.c.active == map[] && w.c.failure.None?
    && !w.c.phase.Snapshot? && w.c.lastGeneration < MAX_SAFE_INTEGER
    && Plannable(w.c.lastGeneration + 1, |DayGraph.Select(w.c.dirty, w.c.incomplete, w.c.links)|)
  }

  /** The active generation has captured the selection and its manifest is stamped. */
  predicate ReadyWith(c: State, days: set<Day>) {
    ManifestReady(c) && c.captured == map[c.activeGeneration.value := days]
  }

  lemma BeginLeads(w: World, claim: string, clock: Clock) returns (run: seq<Action>, w1: World)
    requires CanCapture(w, clock) && DayGraph.Select(w.c.dirty, w.c.incomplete, w.c.links) != {}
    ensures Leads(w, run, w1) && Steady(w1, clock) && SameDayTables(w.c, w1.c) && w1.c.intents == map[]
    ensures Holding(w1.c, w.c.lastGeneration + 1, claim, clock)
    ensures w1.c.captured == map[w.c.lastGeneration as int + 1 := DayGraph.Select(w.c.dirty, w.c.incomplete, w.c.links)]
  {
    AcceptsBegin(w.c, claim, clock);
    w1 := Served(w, Step(w.c, OnGate(CallBeginSnapshot(claim)), clock).state);
    run := ServeLeads(w, OnGate(CallBeginSnapshot(claim)), clock, w1.c);
  }

  lemma CopiedHolds(w: World, c: State, c1: State, g: int, claim: string, clock: Clock)
    requires Kept(w) && SameWindow(w, clock) && SameDayTables(w.c, c)
    requires Holding(c, g, claim, clock) && CopiedTo(c, c1, g)
    requires c.captured == map[g := DayGraph.Select(w.c.dirty, w.c.incomplete, w.c.links)]
    ensures Holding(c1, g, claim, clock) && CaptureRetained(c1, clock) && c1.captured == c.captured
    ensures c1.progress[g].next == CopyCount(CountCaptured(c1, g))
  {
    DayGraph.SelectIsClosed(w.c.dirty, w.c.incomplete, w.c.links);
    CapturedDaysOne(c1, g);
    forall d | d in CapturedDays(c1) ensures clock.Retains(d) {
      assert d in w.c.dirty;
    }
  }

  /** The next selection can be captured, copied and made ready for publishing. */
  lemma SelectionLeads(w: World, claim: string, clock: Clock) returns (run: seq<Action>, w1: World)
    requires CanCapture(w, clock) && DayGraph.Select(w.c.dirty, w.c.incomplete, w.c.links) != {}
    ensures Leads(w, run, w1) && ReadyWith(w1.c, DayGraph.Select(w.c.dirty, w.c.incomplete, w.c.links))
  {
    var g: int := w.c.lastGeneration + 1;
    var begin, begun := BeginLeads(w, claim, clock);
    var copies, copied := CopiesLead(begun, g, claim, clock);
    LeadsOn(w, begin, begun, copies, copied);
    CopiedHolds(w, begun.c, copied.c, g, claim, clock);
    var stamp;
    stamp, w1 := StampLeads(copied, g, claim, clock);
    LeadsOn(w, begin + copies, copied, stamp, w1);
    run := begin + copies + stamp;
  }

  /** A fact live on two days of the next selection can be published on both, by allowed steps alone. */
  lemma LiveTwiceIsPublishedTwice(w: World, key: Key, d: Day, e: Day, claim: string, clock: Clock)
    returns (run: seq<Action>)
    requires CanCapture(w, clock) && Workable(w) && Filed(w.store)
    requires d != e && Live(w.store, key, d) && Live(w.store, key, e)
    requires {d, e} <= DayGraph.Select(w.c.dirty, w.c.incomplete, w.c.links)
    ensures IsRun(w, run) && !Unique(End(w, run))
  {
    assert d in DayGraph.Select(w.c.dirty, w.c.incomplete, w.c.links);
    var ready, stamped := SelectionLeads(w, claim, clock);
    LeadsToWorkable(w, ready);
    PublishedTwice(stamped, key, d, e, DayGraph.Select(w.c.dirty, w.c.incomplete, w.c.links));
    PublishEnds(stamped);
    RunConcat(w, ready, [Action.Publish]);
    run := ready + [Action.Publish];
  }

  lemma PublishEnds(w: World)
    requires ManifestReady(w.c)
    ensures IsRun(w, [Action.Publish]) && End(w, [Action.Publish]) == AfterPublish(w)
  {
    assert [Action.Publish][1..] == [];
    assert IsRun(AfterPublish(w), []);
  }

  lemma PublishedTwice(w: World, key: Key, d: Day, e: Day, days: set<Day>)
    requires Workable(w) && Filed(w.store) && ReadyWith(w.c, days) && d in days && e in days
    requires d != e && Live(w.store, key, d) && Live(w.store, key, e)
    ensures !Unique(AfterPublish(w))
  {
    PublishedTwiceIffLiveTwice(w, 0, d, e, key);
    var row, other :| row in Visible(AfterPublish(w), 0, d) && other in Visible(AfterPublish(w), 0, e)
      && row.key == key == other.key;
    assert 0 <= 0 < TARGET_COUNT;
  }
}
