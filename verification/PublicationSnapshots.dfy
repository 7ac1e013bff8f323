/** The steps that fill and publish the snapshot tables keep the world's invariant. */
module PublicationSnapshots {
  import opened Contract
  import opened CopyPlan
  import opened CoordinatorModel
  import opened CoordinatorInvariants
  import opened CoordinatorRuns
  import opened DirtyGraphSelection
  import opened FactStore
  import opened Publication
  import opened PublicationInvariants
  import DayGraph

  /** Only the tables and the job mark changed, and no slot that readers see. */
  ghost predicate OnlyHiddenSlots(w: World, w': World) {
    && SameRecords(w, w'.(tables := w.tables))
    && w'.c == w.c && w'.writer == w.writer
    && (forall t, d :: Visible(w', t, d) == Visible(w, t, d))
  }

  lemma HiddenSlotsKeepViews(w: World, w': World)
    requires OnlyHiddenSlots(w, w')
    requires LinksInside(w) && Anchored(w) && Unique(w) && StrayInv(w) && Coherent(w) && ManifestInv(w)
    ensures LinksInside(w') && Anchored(w') && Unique(w') && StrayInv(w') && Coherent(w') && ManifestInv(w')
  {
    assert Nodes(w') == Nodes(w);
  }

  lemma HiddenSlotsKeepRows(w: World, w': World)
    requires OnlyHiddenSlots(w, w') && WriterInv(w) && RevisionInv(w)
    ensures WriterInv(w') && RevisionInv(w')
  {}

  /** While a Copy is outstanding, the active generation is unpublished and its cursor inside its range. */
  lemma OutstandingMeansUnpublished(w: World)
    requires GenerationInv(w.c) && ManifestInv(w) && w.c.activeGeneration.Some? && w.c.intents != map[]
    ensures w.c.activeGeneration.value !in w.manifests
    ensures Cursor(w.c) < CopyCount(CountCaptured(w.c, w.c.activeGeneration.value))
  {
    var g := w.c.activeGeneration.value;
    var k :| k in w.c.intents;
    assert KeyAt(g, CountCaptured(w.c, g), w.c.progress[g].next) == Some(k);
  }

  lemma CopyIsHidden(w: World)
    requires w.c.activeGeneration.Some? && w.c.activeGeneration.value !in w.manifests
    requires forall d :: d in w.published ==> w.published[d] in w.manifests
    ensures OnlyHiddenSlots(w, AfterCopy(w))
  {
    var w' := AfterCopy(w);
    forall t, d ensures Visible(w', t, d) == Visible(w, t, d) {
      if d in w.published {
        var slot := Slot(t, w.published[d], d);
        assert slot in w'.tables <==> slot in w.tables;
      }
    }
  }

  lemma CopyMakesSlotsCurrent(w: World, i: nat)
    requires w.c.activeGeneration.Some? && w.c.intents != map[]
    requires i < Cursor(w.c) ==> SlotsCurrent(w, i)
    requires i <= Cursor(w.c)
    ensures SlotsCurrent(AfterCopy(w), i)
  {
    var w' := AfterCopy(w);
    var g, here := w.c.activeGeneration.value, Cursor(w.c);
    forall d | d in CopyDays(w.c, i)
      ensures Slot(i % TARGET_COUNT, g, d) in w'.tables && w'.tables[Slot(i % TARGET_COUNT, g, d)] == DayFacts(w.store, d)
    {
      if d in CopyDays(w.c, here) && here % TARGET_COUNT == i % TARGET_COUNT {
        assert Slot(here % TARGET_COUNT, g, d) == Slot(i % TARGET_COUNT, g, d);
      }
    }
  }

  lemma RunCopyKeeps(w: World)
    requires WorldInv(w) && Enabled(w, RunCopy)
    ensures WorldInv(Next(w, RunCopy))
  {
    var w' := AfterCopy(w);
    OutstandingMeansUnpublished(w);
    CopyIsHidden(w);
    HiddenSlotsKeepViews(w, w');
    HiddenSlotsKeepRows(w, w');
    forall i: nat | i <= Cursor(w.c) ensures SlotsCurrent(w', i) {
      CopyMakesSlotsCurrent(w, i);
    }
  }

  lemma RunRetiredKeeps(w: World, slot: Slot, facts: set<Row>)
    requires WorldInv(w) && Enabled(w, RunRetired(slot, facts))
    ensures WorldInv(Next(w, RunRetired(slot, facts)))
  {
    var w' := Next(w, RunRetired(slot, facts));
    RetiredIsHidden(w, slot, facts);
    HiddenSlotsKeepViews(w, w');
    HiddenSlotsKeepRows(w, w');
    forall i: nat | SlotsCurrent(w, i) ensures SlotsCurrent(w', i) {
      RetiredKeepsSlots(w, slot, facts, i);
    }
  }

  lemma RetiredIsHidden(w: World, slot: Slot, facts: set<Row>)
    requires slot.generation !in w.manifests
    requires forall d :: d in w.published ==> w.published[d] in w.manifests
    ensures OnlyHiddenSlots(w, w.(tables := w.tables[slot := facts]))
  {}

  lemma RetiredKeepsSlots(w: World, slot: Slot, facts: set<Row>, i: nat)
    requires Past(w.c, slot.generation) && SlotsCurrent(w, i)
    ensures SlotsCurrent(w.(tables := w.tables[slot := facts]), i)
  {}

  // ---- publishing a manifest ----

  /** Once every Copy of the active generation is settled, all its slots hold the current facts. */
  lemma FullyCopied(w: World, t: nat, d: Day)
    requires t < TARGET_COUNT && CaptureInv(w.c) && GateInv(w.c) && w.c.activeGeneration.Some?
    requires Cursor(w.c) == CopyCount(CountCaptured(w.c, w.c.activeGeneration.value))
    requires forall i :: 0 <= i < Cursor(w.c) ==> SlotsCurrent(w, i)
    requires d in w.c.captured[w.c.activeGeneration.value]
    ensures Slot(t, w.c.activeGeneration.value, d) in w.tables
    ensures w.tables[Slot(t, w.c.activeGeneration.value, d)] == DayFacts(w.store, d)
  {
    var days := w.c.captured[w.c.activeGeneration.value];
    assert d in DaySet(Ordered(days));
    var k :| 0 <= k < |Ordered(days)| && Ordered(days)[k] == d;
    var i := EveryDayIsCopiedToEveryTarget(Ordered(days), k, t);
    assert SlotsCurrent(w, i) && d in CopyDays(w.c, i);
  }

  /** What is visible after publishing: the captured days as they are now, the rest as before. */
  ghost predicate PublishedViews(w: World, w': World, days: set<Day>) {
    forall t, d :: 0 <= t < TARGET_COUNT ==>
      Visible(w', t, d) == if d in days then DayFacts(w.store, d) else Visible(w, t, d)
  }

  lemma PublishShows(w: World)
    requires CaptureInv(w.c) && GateInv(w.c) && ManifestReady(w.c) && CopiesInv(w)
    requires Cursor(w.c) == CopyCount(CountCaptured(w.c, w.c.activeGeneration.value))
    ensures PublishedViews(w, AfterPublish(w), w.c.captured[w.c.activeGeneration.value])
  {
    var w' := AfterPublish(w);
    var g := w.c.activeGeneration.value;
    var days := w.c.captured[g];
    forall t, d | 0 <= t < TARGET_COUNT
      ensures Visible(w', t, d) == if d in days then DayFacts(w.store, d) else Visible(w, t, d)
    {
      if d in days {
        FullyCopied(w, t, d);
        assert w'.published[d] == g;
      }
    }
  }

  /** In a capture every live fact is where the index says it is. */
  lemma CapturedIsRepaired(w: World, days: set<Day>, row: Row, d: Day)
    requires StrayInv(w) && Filed(w.store) && w.writer.None?
    requires days !! w.c.incomplete && d in days && row in DayFacts(w.store, d)
    ensures row.day == d && row.key in w.store.index && w.store.index[row.key].day == d
  {
    var cell :| cell in w.store.table && cell.day == d && w.store.table[cell] == row && !row.deleted;
    assert Live(w.store, row.key, d);
  }

  lemma PublishKeepsAnchors(w: World, w': World, days: set<Day>)
    requires PublishedViews(w, w', days) && w' == w.(manifests := w'.manifests, published := w'.published)
    requires StrayInv(w) && Filed(w.store) && w.writer.None? && Anchored(w) && days !! w.c.incomplete
    ensures Anchored(w')
  {
    assert Nodes(w') == Nodes(w);
    forall t, d, row | 0 <= t < TARGET_COUNT && row in Visible(w', t, d)
      ensures row.day == d && row.key in w.store.index && Joined(Nodes(w), w.c.links, d, w.store.index[row.key].day)
    {
      if d in days {
        CapturedIsRepaired(w, days, row, d);
      } else {
        assert row in Visible(w, t, d);
      }
    }
  }

  /** A fact visible outside a capture is not stored inside it. */
  lemma OutsideStaysOutside(w: World, days: set<Day>, t: nat, e: Day, row: Row)
    requires Anchored(w) && w.writer.None? && DayGraph.Closed(days, w.c.dirty, w.c.links)
    requires t < TARGET_COUNT && row in Visible(w, t, e) && e !in days
    ensures row.key in w.store.index && w.store.index[row.key].day !in days
  {
    var home := w.store.index[row.key].day;
    assert Nodes(w) == w.c.dirty;
    if e != home {
      DayGraph.ConnectedSym(w.c.dirty, w.c.links, e, home);
      if home in days {
        DayGraph.ConnectedStaysClosed(days, w.c.dirty, w.c.links, home, e);
      }
    }
  }

  lemma PublishKeepsUnique(w: World, w': World, days: set<Day>)
    requires PublishedViews(w, w', days)
    requires StrayInv(w) && Filed(w.store) && w.writer.None? && Anchored(w) && Unique(w)
    requires days !! w.c.incomplete && DayGraph.Closed(days, w.c.dirty, w.c.links)
    ensures Unique(w')
  {
    forall t, d, e, row, other |
      0 <= t < TARGET_COUNT && row in Visible(w', t, d) && other in Visible(w', t, e) && row.key == other.key
      ensures d == e
    {
      if d in days {
        CapturedIsRepaired(w, days, row, d);
      } else {
        OutsideStaysOutside(w, days, t, d, row);
      }
      if e in days {
        CapturedIsRepaired(w, days, other, e);
      } else {
        OutsideStaysOutside(w, days, t, e, other);
      }
    }
  }

  lemma PublishKeepsTheRest(w: World, w': World, days: set<Day>, g: int)
    requires PublishedViews(w, w', days) && days <= w.c.dirty && w.writer.None?
    requires w' == w.(manifests := w.manifests + {g}, published := w.published + map d | d in days :: g)
    requires LinksInside(w) && StrayInv(w) && Coherent(w) && CopiesInv(w) && ManifestInv(w)
    requires w.c.activeGeneration == Some(g) && g <= w.c.lastGeneration && Cursor(w.c) == CopyCount(CountCaptured(w.c, g))
    requires g in w.c.captured ==> w.c.captured[g] == days
    ensures LinksInside(w') && StrayInv(w') && Coherent(w') && CopiesInv(w') && ManifestInv(w')
  {
    assert Nodes(w') == Nodes(w);
    assert forall i: nat :: SlotsCurrent(w', i) == SlotsCurrent(w, i);
  }

  lemma PublishKeepsRows(w: World, w': World)
    requires w' == w.(manifests := w'.manifests, published := w'.published)
    requires WriterInv(w) && RevisionInv(w)
    ensures WriterInv(w') && RevisionInv(w')
  {}

  lemma SnapshotFacts(w: World)
    requires GenerationInv(w.c) && WriterInv(w) && w.c.activeGeneration.Some?
    ensures w.writer.None? && w.c.activeGeneration == Some(w.c.lastGeneration as int)
    ensures
      var days := w.c.captured[w.c.lastGeneration];
      && w.c.lastGeneration as int in w.c.captured && days <= w.c.dirty && days !! w.c.incomplete
      && DayGraph.Closed(days, w.c.dirty, w.c.links)
    ensures ManifestReady(w.c) ==> Cursor(w.c) == CopyCount(CountCaptured(w.c, w.c.lastGeneration))
  {}

  lemma PublishKeeps(w: World)
    requires WorldInv(w) && Enabled(w, Publish)
    ensures WorldInv(Next(w, Publish))
  {
    var w' := AfterPublish(w);
    SnapshotFacts(w);
    var g := w.c.activeGeneration.value;
    var days := w.c.captured[g];
    PublishShows(w);
    PublishKeepsAnchors(w, w', days);
    PublishKeepsUnique(w, w', days);
    PublishKeepsTheRest(w, w', days, g);
    PublishKeepsRows(w, w');
  }
}
