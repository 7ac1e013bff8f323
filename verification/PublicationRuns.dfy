/** What readers and deliveries can rely on in every run of the whole protocol. */
module PublicationRuns {
  import opened Contract
  import opened CopyPlan
  import opened CoordinatorModel
  import opened CoordinatorInvariants
  import opened FactStore
  import opened Publication
  import opened PublicationInvariants
  import opened PublicationSnapshots
  import opened PublicationCalls
  import opened DeliveryPartitions
  import DayGraph

  /** A run: every step is enabled in the world the steps before it made. */
  ghost predicate IsRun(w: World, run: seq<Action>)
    decreases |run|
  {
    run == [] || (Enabled(w, run[0]) && IsRun(Next(w, run[0]), run[1..]))
  }

  ghost function End(w: World, run: seq<Action>): World
    requires IsRun(w, run)
    decreases |run|
  {
    if run == [] then w else End(Next(w, run[0]), run[1..])
  }

  lemma {:induction false} RunKeepsInv(w: World, run: seq<Action>)
    requires WorldInv(w) && IsRun(w, run)
    ensures WorldInv(End(w, run))
    decreases |run|
  {
    if run != [] {
      NextKeepsInv(w, run[0]);
      RunKeepsInv(Next(w, run[0]), run[1..]);
    }
  }

  ghost predicate Reachable(w: World) {
    exists oldest, today, run :: IsRun(Start(oldest, today), run) && w == End(Start(oldest, today), run)
  }

  lemma ReachableWorldInv(w: World)
    requires Reachable(w)
    ensures WorldInv(w)
  {
    var oldest, today, run :| IsRun(Start(oldest, today), run) && w == End(Start(oldest, today), run);
    StartInv(oldest, today);
    RunKeepsInv(Start(oldest, today), run);
  }

  /** No table ever shows one fact identity in two days. */
  lemma FactsAreVisibleInOneDay(w: World, target: nat, d: Day, e: Day, row: Row, other: Row)
    requires Reachable(w) && target < TARGET_COUNT
    requires row in Visible(w, target, d) && other in Visible(w, target, e) && row.key == other.key
    ensures d == e
  {
    ReachableWorldInv(w);
  }

  /** A fact published in one day and now stored in another is joined to it by pending links. */
  lemma MovedFactsStayLinked(w: World, target: nat, d: Day, row: Row)
    requires Reachable(w) && target < TARGET_COUNT && row in Visible(w, target, d)
    ensures row.key in w.store.index
    ensures
      var now := w.store.index[row.key].day;
      d == now || DayGraph.Connected(PendingDays(w.c), w.c.links, d, now)
  {
    ReachableWorldInv(w);
    var now := w.store.index[row.key].day;
    if d != now {
      NodesArePending(w);
      DayGraph.ConnectedMono(Nodes(w), w.c.links, PendingDays(w.c), w.c.links, d, now);
    }
  }

  lemma NodesArePending(w: World)
    ensures Nodes(w) <= PendingDays(w.c)
  {
    forall d | d in Nodes(w) && d !in w.c.dirty ensures d in PendingDays(w.c) {
      assert w.writer.value.id in w.c.active && d in w.c.active[w.writer.value.id].days;
    }
  }

  lemma LandedDaysArePending(w: World, d: Day)
    requires WriterInv(w) && Touched(w, d)
    ensures d in PendingDays(w.c)
  {
    var row :| row in w.writer.value.landed && row.day == d;
    assert row.day in PlanDays(w.writer.value.rows);
  }

  /** A day that is neither dirty nor in an active delivery is published exactly as it is stored. */
  lemma CleanDaysAreCoherent(w: World, target: nat, d: Day)
    requires Reachable(w) && target < TARGET_COUNT && d !in PendingDays(w.c)
    ensures Visible(w, target, d) == DayFacts(w.store, d)
  {
    ReachableWorldInv(w);
    if Touched(w, d) {
      LandedDaysArePending(w, d);
    }
  }

  /** The nine tables always show the same facts of a day, pending or not. */
  lemma TablesAlwaysAgree(w: World, t: nat, u: nat, d: Day)
    requires Reachable(w) && t < TARGET_COUNT && u < TARGET_COUNT
    ensures Visible(w, t, d) == Visible(w, u, d)
  {
    ReachableWorldInv(w);
  }

  /** The delivery that holds the permit and has not planned yet has the greatest revision of all. */
  lemma LaterRevisionNeverFound(w: World, id: string, lists: seq<seq<Row>>)
    requires Reachable(w) && w.writer.None? && HoldsPermit(w.c, id)
    ensures !Overtaken(lists, w.store.index, w.c.active[id].sequence)
  {
    ReachableWorldInv(w);
    assert Below(w.store, w.c.active[id].sequence);
  }

  /** Between deliveries, a fact is live twice only on an incomplete day. */
  lemma FactsLiveOnceBetweenDeliveries(w: World, key: Key, d: Day, e: Day)
    requires Reachable(w) && w.writer.None? && Live(w.store, key, d) && Live(w.store, key, e)
    ensures d == e || d in w.c.incomplete || e in w.c.incomplete
  {
    ReachableWorldInv(w);
  }

  /**
   * Why only repaired days may be resolved: a capture publishes a fact on two of its days exactly
   * when the store holds it live on both.
   */
  lemma PublishedTwiceIffLiveTwice(w: World, target: nat, d: Day, e: Day, key: Key)
    requires Inv(w.c) && CopiesInv(w) && Filed(w.store) && ManifestReady(w.c) && target < TARGET_COUNT
    requires
      var g := w.c.activeGeneration.value;
      && g in w.c.captured && d in w.c.captured[g] && e in w.c.captured[g]
    ensures
      (exists row, other :: row in Visible(AfterPublish(w), target, d) && other in Visible(AfterPublish(w), target, e)
         && row.key == key == other.key)
      <==> (Live(w.store, key, d) && Live(w.store, key, e))
  {
    PublishShows(w);
    if Live(w.store, key, d) && Live(w.store, key, e) {
      LiveIsShown(w.store, key, d);
      LiveIsShown(w.store, key, e);
      assert w.store.table[Cell(key, d)] in Visible(AfterPublish(w), target, d);
      assert w.store.table[Cell(key, e)] in Visible(AfterPublish(w), target, e);
    }
  }

  lemma LiveIsShown(s: Store, key: Key, d: Day)
    requires Live(s, key, d) && Filed(s)
    ensures s.table[Cell(key, d)] in DayFacts(s, d) && s.table[Cell(key, d)].key == key
  {
    assert CellOf(s.table[Cell(key, d)]) == Cell(key, d);
  }

  /** The links a plan asks for are those of the facts that change day, as the stored rows give them back. */
  lemma PlanLinksAreTheMoves(live: set<Row>, index: map<Key, Row>, revision: nat)
    requires Versioned(live, revision)
    ensures PlanLinks(Prepared(live, index)) ==
      set row | row in live && Moves(row, index) :: LinkOf(Move(index[row.key].day, row.day))
  {
    var rows := Prepared(live, index);
    PreparedCells(live, index, revision);
    forall row | row in live && Moves(row, index)
      ensures LinkOf(Move(index[row.key].day, row.day)) in PlanLinks(rows)
    {
      assert Tombstone(row, index) in rows && row in rows;
    }
  }
}
