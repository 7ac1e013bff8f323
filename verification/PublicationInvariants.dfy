/**
 * The invariant behind publication, and the proof that every step of the world keeps it. Its core:
 * a fact visible in one day and stored in another is joined to it by links among dirty or
 * in-delivery days, so a capture of whole components never publishes one side of a move alone.
 */
module PublicationInvariants {
  import opened Contract
  import opened CopyPlan
  import opened CoordinatorModel
  import opened CoordinatorInvariants
  import opened CoordinatorRuns
  import opened CoordinatorSafety
  import opened DirtyGraphSelection
  import opened FactStore
  import opened Publication
  import DayGraph

  // ---- the invariant ----

  predicate Within(d: Day, oldest: Day, today: Day) {
    oldest <= d <= today
  }

  /** Every day the coordinator holds is retained, so pruning removes nothing. */
  ghost predicate InWindow(c: State, oldest: Day, today: Day) {
    && (forall d :: d in c.dirty ==> Within(d, oldest, today))
    && (forall d :: d in c.incomplete ==> Within(d, oldest, today))
    && (forall l :: l in c.links ==> Within(l.a, oldest, today) && Within(l.b, oldest, today))
    && (forall id, d :: id in c.active && d in c.active[id].days ==> Within(d, oldest, today))
  }

  ghost predicate Kept(w: World) {
    w.c.erasureStartedAt.None? && InWindow(w.c, w.oldest, w.today)
  }

  ghost predicate Base(w: World) {
    Inv(w.c) && Kept(w)
  }

  /** A stored plan: one revision, and a live row on another day for every tombstone. */
  ghost predicate PlanShape(rows: set<Row>, revision: nat) {
    && OneRevision(rows, revision)
    && (forall t :: t in rows && t.deleted ==> exists r :: r in rows && !r.deleted && r.key == t.key && r.day != t.day)
  }

  /** The plan still fits the index: a row's identity is new, already there, or tombstoned where it is. */
  ghost predicate PlanFits(index: map<Key, Row>, rows: set<Row>) {
    forall r :: r in rows && !r.deleted && r.key in index ==>
      index[r.key].day == r.day || TombAt(rows, r.key, index[r.key].day)
  }

  /** A tombstone that landed has emptied its cell. */
  ghost predicate TombsHold(s: Store, landed: set<Row>) {
    forall t :: t in landed && t.deleted ==> !Live(s, t.key, t.day)
  }

  ghost predicate WriterInv(w: World) {
    w.writer.Some? ==>
      var x := w.writer.value;
      && HoldsPermit(w.c, x.id)
      && PlanShape(x.rows, w.c.active[x.id].sequence) && PlanFits(w.store.index, x.rows)
      && x.landed <= x.rows && TombsHold(w.store, x.landed)
      && (if x.planned then w.c.active[x.id].days == PlanDays(x.rows) && PlanLinks(x.rows) <= w.c.links
          else x.landed == {})
  }

  /** The days whose links count: dirty, or planned by the writer. */
  function Nodes(w: World): set<Day> {
    w.c.dirty +
    if w.writer.Some? && w.writer.value.planned && w.writer.value.id in w.c.active
    then w.c.active[w.writer.value.id].days else {}
  }

  ghost predicate LinksInside(w: World) {
    forall l :: l in w.c.links ==> l.a in Nodes(w) && l.b in Nodes(w)
  }

  /** The same day, or joined to it by links. */
  ghost predicate Joined(nodes: set<Day>, links: set<Link>, a: Day, b: Day) {
    a == b || DayGraph.Connected(nodes, links, a, b)
  }

  /** A visible fact is joined to the day where it is now. */
  ghost predicate Anchored(w: World) {
    forall t, d, row :: 0 <= t < TARGET_COUNT && row in Visible(w, t, d) ==>
      && row.day == d && row.key in w.store.index
      && Joined(Nodes(w), w.c.links, d, w.store.index[row.key].day)
  }

  ghost predicate Unique(w: World) {
    forall t, d, e, row, other :: 0 <= t < TARGET_COUNT ==>
      row in Visible(w, t, d) && other in Visible(w, t, e) && row.key == other.key ==> d == e
  }

  /** A fact live off its index day is on an incomplete day, or the writer is about to bury it. */
  ghost predicate StrayInv(w: World) {
    forall key, d :: Live(w.store, key, d) ==>
      && key in w.store.index
      && (|| w.store.index[key].day == d
          || d in w.c.incomplete
          || (w.writer.Some? && w.writer.value.planned && TombAt(w.writer.value.rows, key, d)))
  }

  /** Every stored row is below a revision or one of the given rows. */
  ghost predicate BelowOr(s: Store, revision: nat, rows: set<Row>) {
    && (forall cell :: cell in s.table ==> s.table[cell].revision < revision || s.table[cell] in rows)
    && (forall key :: key in s.index ==> s.index[key].revision < revision || s.index[key] in rows)
  }

  /** Stored revisions are below those of every delivery that has not landed anything. */
  ghost predicate OthersBelow(w: World) {
    forall id :: id in w.c.active && !IsWriter(w, id) ==> Below(w.store, w.c.active[id].sequence)
  }

  ghost predicate WriterBelow(w: World) {
    w.writer.Some? && w.writer.value.id in w.c.active ==>
      BelowOr(w.store, w.c.active[w.writer.value.id].sequence, w.writer.value.landed)
  }

  ghost predicate RevisionInv(w: World) {
    Filed(w.store) && Below(w.store, w.c.lastSequence + 1) && OthersBelow(w) && WriterBelow(w)
  }

  predicate Touched(w: World, d: Day) {
    w.writer.Some? && exists row :: row in w.writer.value.landed && row.day == d
  }

  /** A day that is not dirty and that no write of the writer touched is published as it is. */
  ghost predicate Coherent(w: World) {
    forall t, d :: 0 <= t < TARGET_COUNT && d !in w.c.dirty && !Touched(w, d) ==>
      Visible(w, t, d) == DayFacts(w.store, d)
  }

  ghost predicate SlotsCurrent(w: World, i: nat) {
    w.c.activeGeneration.Some? &&
    forall d :: d in CopyDays(w.c, i) ==>
      var slot := Slot(i % TARGET_COUNT, w.c.activeGeneration.value, d);
      slot in w.tables && w.tables[slot] == DayFacts(w.store, d)
  }

  /** Every settled Copy, and one whose job has run, holds the current facts of its days. */
  ghost predicate CopiesInv(w: World) {
    && (w.c.activeGeneration.Some? ==> forall i :: 0 <= i < Cursor(w.c) ==> SlotsCurrent(w, i))
    && (w.jobDone ==> w.c.intents != map[] && SlotsCurrent(w, Cursor(w.c)))
  }

  /** An active generation is published only once fully copied, and then on all its days. */
  ghost predicate PublishedAtCursorEnd(w: World, g: int) {
    && Cursor(w.c) == CopyCount(CountCaptured(w.c, g))
    && (g in w.c.captured ==> forall d :: d in w.c.captured[g] ==> d in w.published && w.published[d] == g)
  }

  /** Published generations are old or fully copied, and their slots agree across the tables. */
  ghost predicate ManifestInv(w: World) {
    && (forall g :: g in w.manifests ==> g <= w.c.lastGeneration)
    && (forall d :: d in w.published ==> w.published[d] in w.manifests)
    && (w.c.activeGeneration.Some? && w.c.activeGeneration.value in w.manifests ==>
          PublishedAtCursorEnd(w, w.c.activeGeneration.value))
    && (forall t, u, d :: 0 <= t < TARGET_COUNT && 0 <= u < TARGET_COUNT ==> Visible(w, t, d) == Visible(w, u, d))
  }

  ghost predicate WorldInv(w: World) {
    && Base(w) && WriterInv(w) && LinksInside(w) && RevisionInv(w)
    && Anchored(w) && Unique(w) && StrayInv(w) && Coherent(w)
    && CopiesInv(w) && ManifestInv(w)
  }

  lemma StartInv(oldest: Day, today: Day)
    ensures WorldInv(Start(oldest, today))
  {
    InitialInv();
    var w := Start(oldest, today);
    forall t, d ensures Visible(w, t, d) == {} && DayFacts(w.store, d) == {} {}
  }

  // ---- preparing a plan ----

  lemma PreparedShape(live: set<Row>, index: map<Key, Row>, revision: nat)
    requires Versioned(live, revision)
    requires forall key :: key in index ==> index[key].key == key
    ensures PlanShape(Prepared(live, index), revision) && PlanFits(index, Prepared(live, index))
  {
    var rows := Prepared(live, index);
    PreparedCells(live, index, revision);
    forall t | t in rows && t.deleted
      ensures exists r :: r in rows && !r.deleted && r.key == t.key && r.day != t.day
    {
      var r :| r in live && Moves(r, index) && t == Tombstone(r, index);
      assert r in rows;
    }
    forall r | r in rows && !r.deleted && r.key in index && index[r.key].day != r.day
      ensures TombAt(rows, r.key, index[r.key].day)
    {
      assert Moves(r, index) && Tombstone(r, index) in rows;
    }
  }

  /** Nothing readers see, nothing stored and nothing copied has changed. */
  ghost predicate SameRecords(w: World, w': World) {
    && w'.store == w.store && w'.tables == w.tables
    && w'.manifests == w.manifests && w'.published == w.published
    && w'.oldest == w.oldest && w'.today == w.today
  }

  lemma PrepareKeepsViews(w: World, w': World, x: Writer)
    requires w.writer.None? && w' == w.(writer := Some(x)) && !x.planned && x.landed == {}
    requires LinksInside(w) && Anchored(w) && Unique(w) && StrayInv(w) && Coherent(w) && ManifestInv(w) && CopiesInv(w)
    ensures LinksInside(w') && Anchored(w') && Unique(w') && StrayInv(w') && Coherent(w') && ManifestInv(w') && CopiesInv(w')
  {
    assert Nodes(w') == Nodes(w);
    assert forall t, d :: Visible(w', t, d) == Visible(w, t, d);
    assert forall i: nat :: SlotsCurrent(w', i) == SlotsCurrent(w, i);
  }

  lemma PrepareKeeps(w: World, id: string, live: set<Row>)
    requires WorldInv(w) && Enabled(w, Prepare(id, live))
    ensures WorldInv(Next(w, Prepare(id, live)))
  {
    var w' := Next(w, Prepare(id, live));
    PreparedShape(live, w.store.index, w.c.active[id].sequence);
    PrepareKeepsViews(w, w', w'.writer.value);
  }

  // ---- landing one row ----

  /** The facts about the writer that one landing uses. */
  ghost predicate Landing(w: World, row: Row) {
    && w.writer.Some? && w.writer.value.planned && row in w.writer.value.rows
    && w.writer.value.id in w.c.active
    && row.revision == w.c.active[w.writer.value.id].sequence
  }

  ghost function AfterLand(w: World, row: Row): World
    requires w.writer.Some?
  {
    w.(store := Insert(w.store, row), writer := Some(w.writer.value.(landed := w.writer.value.landed + {row})))
  }

  /** The inserted row is the newest of its cell, and of its identity when it is live. */
  lemma LandedWins(w: World, row: Row)
    requires Landing(w, row) && RevisionInv(w) && w.writer.value.landed <= w.writer.value.rows
    requires PlanShape(w.writer.value.rows, row.revision)
    ensures
      var s' := Insert(w.store, row);
      && s'.table == w.store.table[CellOf(row) := row]
      && s'.index == if row.deleted then w.store.index else w.store.index[row.key := row]
  {}

  lemma OthersComeLater(c: State, id: string)
    requires DeliveriesInv(c) && HoldsPermit(c, id)
    ensures c.active[id].sequence <= c.lastSequence
    ensures forall other :: other in c.active && other != id ==> c.active[id].sequence < c.active[other].sequence
  {
    forall other | other in c.active && other != id ensures c.active[id].sequence < c.active[other].sequence {
      assert c.active[id].sequence <= c.active[other].sequence;
    }
  }

  lemma InsertKeepsBelow(s: Store, row: Row, revision: nat)
    requires Below(s, revision) && row.revision < revision
    ensures Below(Insert(s, row), revision)
  {}

  lemma InsertKeepsBelowOr(s: Store, row: Row, revision: nat, rows: set<Row>)
    requires BelowOr(s, revision, rows)
    ensures BelowOr(Insert(s, row), revision, rows + {row})
  {}

  lemma InsertKeepsFiled(s: Store, row: Row)
    requires Filed(s)
    ensures Filed(Insert(s, row))
  {}

  lemma LandKeepsOthersBelow(w: World, row: Row)
    requires DeliveriesInv(w.c) && Landing(w, row) && HoldsPermit(w.c, w.writer.value.id) && OthersBelow(w)
    ensures OthersBelow(AfterLand(w, row))
  {
    var id := w.writer.value.id;
    OthersComeLater(w.c, id);
    forall other | other in w.c.active && other != id ensures Below(Insert(w.store, row), w.c.active[other].sequence) {
      InsertKeepsBelow(w.store, row, w.c.active[other].sequence);
    }
  }

  lemma LandKeepsRevisions(w: World, row: Row)
    requires DeliveriesInv(w.c) && Landing(w, row) && HoldsPermit(w.c, w.writer.value.id)
    requires RevisionInv(w)
    ensures RevisionInv(AfterLand(w, row))
  {
    OthersComeLater(w.c, w.writer.value.id);
    InsertKeepsFiled(w.store, row);
    InsertKeepsBelow(w.store, row, w.c.lastSequence + 1);
    InsertKeepsBelowOr(w.store, row, row.revision, w.writer.value.landed);
    LandKeepsOthersBelow(w, row);
  }

  lemma LandKeepsWriter(w: World, row: Row)
    requires WriterInv(w) && RevisionInv(w) && Landing(w, row)
    ensures WriterInv(AfterLand(w, row))
  {
    LandedWins(w, row);
    var s' := Insert(w.store, row);
    var x := w.writer.value;
    forall t | t in x.landed + {row} && t.deleted ensures !Live(s', t.key, t.day) {
      if CellOf(t) == CellOf(row) {
        assert t == row;
      }
    }
    assert PlanFits(s'.index, x.rows);
  }

  /** A live row's day is joined to its identity's old day by a link of the plan. */
  lemma MoveIsLinked(w: World, row: Row)
    requires WriterInv(w) && Landing(w, row) && !row.deleted && row.key in w.store.index
    ensures Joined(Nodes(w), w.c.links, w.store.index[row.key].day, row.day)
  {
    var old_ := w.store.index[row.key].day;
    var x := w.writer.value;
    if old_ != row.day {
      var t :| t in x.rows && t.deleted && t.key == row.key && t.day == old_;
      assert LinkOf(Move(t.day, row.day)) in PlanLinks(x.rows);
      assert DayGraph.Adjacent(w.c.links, old_, row.day);
      assert old_ in PlanDays(x.rows) && row.day in PlanDays(x.rows);
      DayGraph.ConnectedLink(Nodes(w), w.c.links, old_, row.day);
    }
  }

  lemma JoinedTrans(nodes: set<Day>, links: set<Link>, a: Day, b: Day, c: Day)
    requires Joined(nodes, links, a, b) && Joined(nodes, links, b, c)
    ensures Joined(nodes, links, a, c)
  {
    if a != b && b != c {
      DayGraph.ConnectedTrans(nodes, links, a, b, c);
    }
  }

  lemma LandKeepsAnchors(w: World, row: Row)
    requires WriterInv(w) && RevisionInv(w) && Landing(w, row) && Anchored(w)
    ensures Anchored(AfterLand(w, row))
  {
    LandedWins(w, row);
    var w' := AfterLand(w, row);
    assert Nodes(w') == Nodes(w);
    forall t, d, seen | 0 <= t < TARGET_COUNT && seen in Visible(w', t, d)
      ensures seen.day == d && seen.key in w'.store.index
      ensures Joined(Nodes(w'), w'.c.links, d, w'.store.index[seen.key].day)
    {
      assert seen in Visible(w, t, d);
      if !row.deleted && seen.key == row.key {
        MoveIsLinked(w, row);
        JoinedTrans(Nodes(w), w.c.links, d, w.store.index[row.key].day, row.day);
      }
    }
  }

  lemma LandKeepsStrays(w: World, row: Row)
    requires WriterInv(w) && RevisionInv(w) && Landing(w, row) && StrayInv(w)
    ensures StrayInv(AfterLand(w, row))
  {
    LandedWins(w, row);
    var w' := AfterLand(w, row);
    forall key, d | Live(w'.store, key, d)
      ensures key in w'.store.index
      ensures w'.store.index[key].day == d || d in w.c.incomplete || TombAt(w.writer.value.rows, key, d)
    {
      if Cell(key, d) != CellOf(row) {
        assert Live(w.store, key, d);
      }
    }
  }

  lemma LandKeepsViews(w: World, row: Row)
    requires WriterInv(w) && RevisionInv(w) && Landing(w, row)
    requires Coherent(w) && Unique(w) && LinksInside(w) && ManifestInv(w)
    ensures
      var w' := AfterLand(w, row);
      Coherent(w') && Unique(w') && LinksInside(w') && ManifestInv(w')
  {
    LandedWins(w, row);
    var w' := AfterLand(w, row);
    assert Nodes(w') == Nodes(w);
    assert forall t, d :: Visible(w', t, d) == Visible(w, t, d);
    forall d | !Touched(w', d) ensures !Touched(w, d) && DayFacts(w'.store, d) == DayFacts(w.store, d) {
      assert row in w'.writer.value.landed;
      assert forall cell: Cell :: cell.day == d && cell in w'.store.table ==> cell in w.store.table && w'.store.table[cell] == w.store.table[cell];
      assert !exists r :: r in w.writer.value.landed && r.day == d by {
        forall r | r in w.writer.value.landed ensures r.day != d {
          assert r in w'.writer.value.landed;
        }
      }
    }
  }

  /** No delivery is active during a snapshot, so a writer means there is no Copy. */
  lemma WriterMeansNoSnapshot(w: World)
    requires Inv(w.c) && CopiesInv(w) && w.c.active != map[]
    ensures w.c.activeGeneration.None? && !w.jobDone
  {}

  lemma LandKeeps(w: World, row: Row)
    requires WorldInv(w) && Enabled(w, Land(row))
    ensures WorldInv(Next(w, Land(row)))
  {
    assert Next(w, Land(row)) == AfterLand(w, row);
    LandKeepsRevisions(w, row);
    LandKeepsWriter(w, row);
    LandKeepsAnchors(w, row);
    LandKeepsStrays(w, row);
    LandKeepsViews(w, row);
    WriterMeansNoSnapshot(w);
  }
}
