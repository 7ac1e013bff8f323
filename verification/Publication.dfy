/**
 * The delivery and snapshot protocol as a whole: the coordinator, the fact store its deliveries
 * write, the Copies that fill the snapshot tables and the manifests that publish them, interleaved
 * in any order over a fixed retention window.
 */
module Publication {
  import opened Contract
  import opened CopyPlan
  import opened CoordinatorModel
  import opened CoordinatorRuns
  import opened DirtyGraphSelection
  import opened FactStore
  import DayGraph

  /** The delivery that holds the write permit and has persisted its plan. */
  datatype Writer = Writer(id: string, rows: set<Row>, planned: bool, landed: set<Row>)

  /** One day of one generation in one snapshot table. */
  datatype Slot = Slot(target: nat, generation: int, day: Day)

  datatype World = World(
    oldest: Day,
    today: Day,
    c: State,
    store: Store,
    writer: Option<Writer>,
    tables: map<Slot, set<Row>>,
    jobDone: bool,
    manifests: set<int>,
    published: map<Day, int>)

  /** The live rows of a day. A Copy computes each of its days from these and nothing else. */
  function DayFacts(s: Store, d: Day): set<Row> {
    set cell | cell in s.table && cell.day == d && !s.table[cell].deleted :: s.table[cell]
  }

  /** What readers of a snapshot table see of a day: the greatest published generation. */
  function Visible(w: World, target: nat, d: Day): set<Row> {
    if d in w.published && Slot(target, w.published[d], d) in w.tables
    then w.tables[Slot(target, w.published[d], d)] else {}
  }

  ghost function Ordered(days: set<Day>): (sorted: seq<Day>)
    ensures DaySet(sorted) == days && |sorted| == |days|
    decreases |days|
  {
    if days == {} then []
    else
      var last := DayGraph.Latest(days);
      var sorted := Ordered(days - {last}) + [last];
      assert DaySet(sorted) == DaySet(Ordered(days - {last})) + {last};
      sorted
  }

  /** The days that the Copy at a cursor position of the active generation writes. */
  ghost function CopyDays(c: State, copyIndex: nat): set<Day> {
    if c.activeGeneration.Some? && c.activeGeneration.value in c.captured
    then DaySet(ChunkDays(Ordered(c.captured[c.activeGeneration.value]), copyIndex / TARGET_COUNT))
    else {}
  }

  /** The day links a stored plan asks for: from each tombstone to the live row that replaces it. */
  function PlanLinks(rows: set<Row>): set<Link> {
    set t, r | t in rows && r in rows && t.deleted && !r.deleted && t.key == r.key :: LinkOf(Move(t.day, r.day))
  }

  function PlanDays(rows: set<Row>): set<Day> {
    set r | r in rows :: r.day
  }

  predicate TombAt(rows: set<Row>, key: Key, d: Day) {
    exists t :: t in rows && t.deleted && t.key == key && t.day == d
  }

  /**
   * When incomplete days may be resolved: every fact live on one of them is where the index says it
   * is, or the planned writer is about to bury it there.
   */
  ghost predicate Resolvable(w: World, days: set<Day>) {
    forall key, d :: d in days && Live(w.store, key, d) ==>
      || (key in w.store.index && w.store.index[key].day == d)
      || (w.writer.Some? && w.writer.value.planned && TombAt(w.writer.value.rows, key, d))
  }

  datatype Action =
    | Serve(call: Call, clock: Clock)
    | Prepare(id: string, live: set<Row>)
    | Land(row: Row)
    | RunCopy
    | RunRetired(slot: Slot, facts: set<Row>)
    | Publish

  predicate IsWriter(w: World, id: string) {
    w.writer.Some? && w.writer.value.id == id
  }

  predicate HoldsClaim(c: State, generation: int, claim: string) {
    c.activeGeneration == Some(generation) && generation in c.progress && c.progress[generation].claim == claim
  }

  predicate HasJob(c: State, key: CopyKey, job: string) {
    key in c.intents && c.intents[key].job == Some(job)
  }

  /**
   * What callers of the coordinator keep to: a delivery plans its stored rows and completes only when
   * they have landed; an operator resolves only days whose facts are where the index has them; the
   * runner settles a Copy as done only after its job ran, fails a snapshot only while Copies remain,
   * and finishes it only after its manifest was published. No erasure begins; its other calls are
   * answered as long as none has begun.
   */
  ghost predicate Allowed(w: World, call: Call) {
    match call
    case OnDelivery(CallPlanWrite(id, _, days, moves)) =>
      IsWriter(w, id) && DaySetOf(days) == PlanDays(w.writer.value.rows) && LinksOf(moves) == PlanLinks(w.writer.value.rows)
    case OnDelivery(CallLinkDirtyDays(id, _, moves)) =>
      IsWriter(w, id) && w.writer.value.planned && LinksOf(moves) <= PlanLinks(w.writer.value.rows)
    case OnDelivery(CallFinishDelivery(id, _, has, _)) =>
      has ==> IsWriter(w, id) && w.writer.value.planned && w.writer.value.landed == w.writer.value.rows
    case OnDelivery(CallResolveIncompleteDays(days)) => Resolvable(w, DaySetOf(days))
    case OnGate(CallFinishSnapshot(g, _)) => g in w.manifests
    case OnGate(CallFailSnapshot(g, claim, _)) =>
      HoldsClaim(w.c, g, claim) ==> Cursor(w.c) < CopyCount(CountCaptured(w.c, g))
    case OnCopy(CallSettleIntent(key, claim, _, job, succeeded)) =>
      succeeded && HoldsClaim(w.c, key.generation, claim) && HasJob(w.c, key, job) ==> w.jobDone
    case OnErasure(erasure) => !erasure.CallBeginErasure?
    case _ => true
  }

  /** The generation whose manifest may be published: active, with its manifest prepared. */
  predicate ManifestReady(c: State) {
    && c.activeGeneration.Some? && c.activeGeneration.value in c.progress
    && c.progress[c.activeGeneration.value].manifestAt.Some?
  }

  ghost predicate Enabled(w: World, a: Action) {
    match a
    case Serve(call, clock) => clock.oldest == w.oldest && clock.today == w.today && Allowed(w, call)
    case Prepare(id, live) => w.writer.None? && HoldsPermit(w.c, id) && Versioned(live, w.c.active[id].sequence)
    case Land(row) => w.writer.Some? && w.writer.value.planned && row in w.writer.value.rows
    case RunCopy => w.c.activeGeneration.Some? && w.c.intents != map[] && !w.jobDone
    case RunRetired(slot, _) => Past(w.c, slot.generation) && slot.generation !in w.manifests
    case Publish => ManifestReady(w.c)
  }

  /** The stored plan goes with its delivery, and counts as planned once the coordinator accepted it. */
  function WriterAfter(w: World, call: Call, out: Outcome): Option<Writer> {
    if w.writer.None? || w.writer.value.id !in out.state.active then None
    else if out.reply.DaysPlanned? && call.OnDelivery? && call.delivery.CallPlanWrite?
    then Some(w.writer.value.(planned := true))
    else w.writer
  }

  ghost function AfterServe(w: World, call: Call, clock: Clock): World {
    var out := Step(w.c, call, clock);
    w.(c := out.state,
       writer := WriterAfter(w, call, out),
       jobDone := w.jobDone && out.state.intents.Keys == w.c.intents.Keys)
  }

  ghost function AfterCopy(w: World): World
    requires w.c.activeGeneration.Some?
  {
    var g, i := w.c.activeGeneration.value, Cursor(w.c);
    w.(jobDone := true,
       tables := w.tables + map d | d in CopyDays(w.c, i) :: Slot(i % TARGET_COUNT, g, d) := DayFacts(w.store, d))
  }

  function AfterPublish(w: World): World
    requires ManifestReady(w.c)
  {
    var g := w.c.activeGeneration.value;
    var days := if g in w.c.captured then w.c.captured[g] else {};
    w.(manifests := w.manifests + {g}, published := w.published + map d | d in days :: g)
  }

  ghost function Next(w: World, a: Action): World
    requires Enabled(w, a)
  {
    match a
    case Serve(call, clock) => AfterServe(w, call, clock)
    case Prepare(id, live) => w.(writer := Some(Writer(id, Prepared(live, w.store.index), false, {})))
    case Land(row) =>
      w.(store := Insert(w.store, row), writer := Some(w.writer.value.(landed := w.writer.value.landed + {row})))
    case RunCopy => AfterCopy(w)
    case RunRetired(slot, facts) => w.(tables := w.tables[slot := facts])
    case Publish => AfterPublish(w)
  }

  function Start(oldest: Day, today: Day): World {
    World(oldest, today, INITIAL, EMPTY_STORE, None, map[], false, {}, map[])
  }
}
