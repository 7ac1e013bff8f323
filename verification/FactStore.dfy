/**
 * Versioned facts. A fact row lives in the cell of its identity and its day, where the greatest
 * revision wins; an index of live rows names the current day of each identity. A delivery that
 * moves a fact to another day also writes a tombstone into the old cell. The main result: whatever
 * the order and the repeats of its writes, a delivery does to this store what one update for each
 * row does to a plain map from identity to day and content.
 */
module FactStore {
  import opened Contract
  import opened DirtyGraphSelection

  const CATEGORY_COUNT := 6

  datatype Key = Key(category: nat, identity: string)

  datatype Row = Row(key: Key, day: Day, revision: nat, deleted: bool, content: string)

  datatype Cell = Cell(key: Key, day: Day)

  datatype Store = Store(table: map<Cell, Row>, index: map<Key, Row>)

  const EMPTY_STORE := Store(map[], map[])

  function CellOf(row: Row): Cell {
    Cell(row.key, row.day)
  }

  /** One inserted row. The index sees live rows only. */
  function Insert(s: Store, row: Row): Store {
    Store(
      if CellOf(row) in s.table && s.table[CellOf(row)].revision > row.revision then s.table
      else s.table[CellOf(row) := row],
      if row.deleted || (row.key in s.index && s.index[row.key].revision > row.revision) then s.index
      else s.index[row.key := row])
  }

  function InsertAll(s: Store, rows: seq<Row>): Store {
    if rows == [] then s else Insert(InsertAll(s, rows[..|rows| - 1]), rows[|rows| - 1])
  }

  predicate Live(s: Store, key: Key, day: Day) {
    Cell(key, day) in s.table && !s.table[Cell(key, day)].deleted
  }

  /** Every row sits in its own cell and index entry. */
  ghost predicate Filed(s: Store) {
    && (forall cell :: cell in s.table ==> CellOf(s.table[cell]) == cell)
    && (forall key :: key in s.index ==> s.index[key].key == key && !s.index[key].deleted)
  }

  /** Each identity is live exactly in its index day, with the indexed row. */
  ghost predicate Settled(s: Store) {
    && Filed(s)
    && (forall key, day :: Live(s, key, day) ==> key in s.index && s.index[key].day == day)
    && (forall key :: key in s.index ==>
          Cell(key, s.index[key].day) in s.table && s.table[Cell(key, s.index[key].day)] == s.index[key])
  }

  /** Every stored revision is below the given one. */
  ghost predicate Below(s: Store, revision: nat) {
    && (forall cell :: cell in s.table ==> s.table[cell].revision < revision)
    && (forall key :: key in s.index ==> s.index[key].revision < revision)
  }

  datatype Fact = Fact(day: Day, content: string)

  function FactOf(row: Row): Fact {
    Fact(row.day, row.content)
  }

  /** The facts as readers know them: where each identity is, and what it says. */
  function Plain(s: Store): map<Key, Fact> {
    map key | key in s.index :: FactOf(s.index[key])
  }

  function RowSet(rows: seq<Row>): set<Row> {
    set row | row in rows
  }

  // ---- a delivery's rows ----

  /** Live rows of one revision, at most one for each identity. */
  ghost predicate Versioned(live: set<Row>, revision: nat) {
    && (forall row :: row in live ==> row.revision == revision && !row.deleted)
    && (forall a, b :: a in live && b in live && a.key == b.key ==> a == b)
  }

  predicate Moves(row: Row, index: map<Key, Row>) {
    row.key in index && index[row.key].day != row.day
  }

  function Tombstone(row: Row, index: map<Key, Row>): Row
    requires row.key in index
  {
    row.(day := index[row.key].day, deleted := true)
  }

  /** The live rows and a tombstone for each one that leaves another day. */
  function Prepared(live: set<Row>, index: map<Key, Row>): set<Row> {
    live + set row | row in live && Moves(row, index) :: Tombstone(row, index)
  }

  lemma PreparedCells(live: set<Row>, index: map<Key, Row>, revision: nat)
    requires Versioned(live, revision)
    ensures forall row :: row in Prepared(live, index) ==> row.revision == revision
    ensures forall a, b :: a in Prepared(live, index) && b in Prepared(live, index) && CellOf(a) == CellOf(b) ==> a == b
    ensures forall row :: row in Prepared(live, index) && !row.deleted ==> row in live
  {}

  /** Rows of one revision, no two in one cell and no two live ones of one identity. */
  ghost predicate OneRevision(rows: set<Row>, revision: nat) {
    && (forall row :: row in rows ==> row.revision == revision)
    && (forall a, b :: a in rows && b in rows && CellOf(a) == CellOf(b) ==> a == b)
    && (forall a, b :: a in rows && b in rows && !a.deleted && !b.deleted && a.key == b.key ==> a == b)
  }

  /** The cells once rows of a new revision have landed, in whatever order. */
  ghost predicate TableLanded(before: map<Cell, Row>, rows: set<Row>, after: map<Cell, Row>) {
    && (forall row :: row in rows ==> CellOf(row) in after && after[CellOf(row)] == row)
    && (forall cell :: cell in after ==> after[cell] in rows || (cell in before && before[cell] == after[cell]))
    && (forall cell :: cell in before ==> cell in after)
  }

  ghost predicate IndexLanded(before: map<Key, Row>, rows: set<Row>, after: map<Key, Row>) {
    && (forall row :: row in rows && !row.deleted ==> row.key in after && after[row.key] == row)
    && (forall key :: key in after ==>
          (after[key] in rows && !after[key].deleted) || (key in before && before[key] == after[key]))
    && (forall key :: key in before ==> key in after)
  }

  ghost predicate Landed(s: Store, rows: set<Row>, s': Store) {
    TableLanded(s.table, rows, s'.table) && IndexLanded(s.index, rows, s'.index)
  }

  lemma TableLandOne(s: Store, rows: set<Row>, s': Store, row: Row, revision: nat)
    requires Below(s, revision) && OneRevision(rows + {row}, revision)
    requires TableLanded(s.table, rows, s'.table)
    ensures TableLanded(s.table, rows + {row}, Insert(s', row).table)
  {
    assert row in rows + {row};
    if CellOf(row) in s'.table {
      assert s'.table[CellOf(row)].revision <= revision;
    }
  }

  lemma IndexLandOne(s: Store, rows: set<Row>, s': Store, row: Row, revision: nat)
    requires Below(s, revision) && OneRevision(rows + {row}, revision)
    requires IndexLanded(s.index, rows, s'.index)
    ensures IndexLanded(s.index, rows + {row}, Insert(s', row).index)
  {
    assert row in rows + {row};
    if row.key in s'.index {
      assert s'.index[row.key].revision <= revision;
    }
  }

  lemma {:induction false} InsertAllKeepsFiled(s: Store, rows: seq<Row>)
    requires Filed(s)
    ensures Filed(InsertAll(s, rows))
  {
    if rows != [] {
      InsertAllKeepsFiled(s, rows[..|rows| - 1]);
    }
  }

  lemma InitAndLast(rows: seq<Row>, revision: nat)
    requires rows != [] && OneRevision(RowSet(rows), revision)
    ensures RowSet(rows) == RowSet(rows[..|rows| - 1]) + {rows[|rows| - 1]}
    ensures OneRevision(RowSet(rows[..|rows| - 1]), revision)
  {
    assert rows == rows[..|rows| - 1] + [rows[|rows| - 1]];
  }

  lemma {:induction false} LandAll(s: Store, rows: seq<Row>, revision: nat)
    requires Below(s, revision) && OneRevision(RowSet(rows), revision)
    ensures Landed(s, RowSet(rows), InsertAll(s, rows))
  {
    if rows != [] {
      var init, last := rows[..|rows| - 1], rows[|rows| - 1];
      InitAndLast(rows, revision);
      LandAll(s, init, revision);
      TableLandOne(s, RowSet(init), InsertAll(s, init), last, revision);
      IndexLandOne(s, RowSet(init), InsertAll(s, init), last, revision);
    }
  }

  /** Landed fixes the store, so neither the order of the writes nor their repeats matter. */
  lemma LandedIsUnique(s: Store, rows: set<Row>, a: Store, b: Store)
    requires Filed(s) && Filed(a) && Filed(b) && Landed(s, rows, a) && Landed(s, rows, b)
    requires forall r, q :: r in rows && q in rows && CellOf(r) == CellOf(q) ==> r == q
    requires forall r, q :: r in rows && q in rows && !r.deleted && !q.deleted && r.key == q.key ==> r == q
    ensures a == b
  {
    assert a.table.Keys == b.table.Keys;
    forall cell | cell in a.table ensures a.table[cell] == b.table[cell] {
      if a.table[cell] in rows {
        assert CellOf(a.table[cell]) == cell;
      } else if b.table[cell] in rows {
        assert CellOf(b.table[cell]) == cell;
      }
    }
    assert a.table == b.table;
    assert a.index.Keys == b.index.Keys;
    forall key | key in a.index ensures a.index[key] == b.index[key] {
      if a.index[key] in rows {
        assert a.index[key].key == key;
      } else if b.index[key] in rows {
        assert b.index[key].key == key;
      }
    }
    assert a.index == b.index;
  }

  /** Two write sequences with the same rows leave the same store. */
  lemma WriteOrderIsIrrelevant(s: Store, a: seq<Row>, b: seq<Row>, revision: nat)
    requires Filed(s) && Below(s, revision)
    requires RowSet(a) == RowSet(b) && OneRevision(RowSet(a), revision)
    ensures InsertAll(s, a) == InsertAll(s, b)
  {
    InsertAllKeepsFiled(s, a);
    InsertAllKeepsFiled(s, b);
    LandAll(s, a, revision);
    LandAll(s, b, revision);
    LandedIsUnique(s, RowSet(a), InsertAll(s, a), InsertAll(s, b));
  }

  lemma InsertAllConcat(s: Store, a: seq<Row>, b: seq<Row>)
    ensures InsertAll(s, a + b) == InsertAll(InsertAll(s, a), b)
  {
    if b == [] {
      assert a + b == a;
    } else {
      InsertAllConcat(s, a, b[..|b| - 1]);
      assert (a + b)[..|a + b| - 1] == a + b[..|b| - 1];
    }
  }

  /** Writing any of a delivery's rows again changes nothing. */
  lemma RewritingChangesNothing(s: Store, rows: seq<Row>, again: seq<Row>, revision: nat)
    requires Filed(s) && Below(s, revision) && OneRevision(RowSet(rows), revision)
    requires RowSet(again) <= RowSet(rows)
    ensures InsertAll(InsertAll(s, rows), again) == InsertAll(s, rows)
  {
    InsertAllConcat(s, rows, again);
    assert RowSet(rows + again) == RowSet(rows);
    WriteOrderIsIrrelevant(s, rows + again, rows, revision);
  }

  // ---- refinement of the plain map ----

  /** The reference: every row of a delivery sets its identity's day and content. */
  ghost predicate Updated(before: map<Key, Fact>, live: set<Row>, after: map<Key, Fact>) {
    && (forall row :: row in live ==> row.key in after && after[row.key] == FactOf(row))
    && (forall key :: key in after ==> (exists row :: row in live && row.key == key) || key in before)
    && (forall key :: key in before ==>
          key in after && ((exists row :: row in live && row.key == key) || after[key] == before[key]))
  }

  lemma PreparedLands(s: Store, live: set<Row>, revision: nat, s': Store)
    requires Settled(s) && Filed(s') && Versioned(live, revision)
    requires Landed(s, Prepared(live, s.index), s')
    ensures Settled(s')
  {
    var rows := Prepared(live, s.index);
    PreparedCells(live, s.index, revision);
    forall key, day | Live(s', key, day) ensures key in s'.index && s'.index[key].day == day {
      LiveAfter(s, live, revision, s', key, day);
    }
    forall key | key in s'.index
      ensures Cell(key, s'.index[key].day) in s'.table && s'.table[Cell(key, s'.index[key].day)] == s'.index[key]
    {
      if s'.index[key] in rows {
        assert CellOf(s'.index[key]) == Cell(key, s'.index[key].day);
      } else {
        UntouchedIdentity(s, live, revision, s', key);
      }
    }
  }

  /** An identity no live row names keeps its cells. */
  lemma UntouchedIdentity(s: Store, live: set<Row>, revision: nat, s': Store, key: Key)
    requires Settled(s) && Filed(s') && Versioned(live, revision)
    requires Landed(s, Prepared(live, s.index), s')
    requires key in s'.index && s'.index[key] !in Prepared(live, s.index)
    ensures key in s.index && s'.index[key] == s.index[key]
    ensures forall row :: row in Prepared(live, s.index) ==> row.key != key
    ensures Cell(key, s.index[key].day) in s'.table && s'.table[Cell(key, s.index[key].day)] == s.index[key]
  {
    var rows := Prepared(live, s.index);
    forall row | row in live ensures row.key != key {
      assert row in rows;
    }
  }

  /** A delivered identity's old cell is written too: by its live row, or by its tombstone. */
  lemma OldCellIsWritten(live: set<Row>, index: map<Key, Row>, row: Row)
    requires row in live && row.key in index
    ensures exists written :: written in Prepared(live, index) && CellOf(written) == Cell(row.key, index[row.key].day)
  {
    var written := if Moves(row, index) then Tombstone(row, index) else row;
    assert written in Prepared(live, index) && CellOf(written) == Cell(row.key, index[row.key].day);
  }

  lemma LiveAfter(s: Store, live: set<Row>, revision: nat, s': Store, key: Key, day: Day)
    requires Settled(s) && Filed(s') && Versioned(live, revision)
    requires Landed(s, Prepared(live, s.index), s')
    requires Live(s', key, day)
    ensures key in s'.index && s'.index[key].day == day
  {
    var rows := Prepared(live, s.index);
    var row := s'.table[Cell(key, day)];
    if row !in rows {
      assert Live(s, key, day);
      forall r | r in live ensures r.key != key {
        if r.key in s.index {
          OldCellIsWritten(live, s.index, r);
        }
      }
    }
  }

  /**
   * The refinement. Any write sequence made of exactly the prepared rows, in any order and with any
   * repeats, keeps each identity live in one day and updates the plain map row by row.
   */
  lemma DeliveryRefinesPlainMap(s: Store, live: set<Row>, revision: nat, writes: seq<Row>)
    requires Settled(s) && Below(s, revision) && Versioned(live, revision)
    requires RowSet(writes) == Prepared(live, s.index)
    ensures Settled(InsertAll(s, writes))
    ensures Updated(Plain(s), live, Plain(InsertAll(s, writes)))
  {
    var s' := InsertAll(s, writes);
    PreparedCells(live, s.index, revision);
    InsertAllKeepsFiled(s, writes);
    LandAll(s, writes, revision);
    PreparedLands(s, live, revision, s');
    forall key | key in Plain(s')
      ensures (exists row :: row in live && row.key == key) || (key in Plain(s) && Plain(s')[key] == Plain(s)[key])
    {
      if s'.index[key] in Prepared(live, s.index) {
        assert s'.index[key] in live;
      }
    }
  }

  datatype Write = Write(live: set<Row>, revision: nat, rows: seq<Row>)

  /** A serialized run of deliveries: each is prepared against the index the ones before it left. */
  ghost predicate Serialized(s: Store, deliveries: seq<Write>)
    decreases |deliveries|
  {
    deliveries == [] ||
    (var d := deliveries[0];
     && Below(s, d.revision) && Versioned(d.live, d.revision)
     && RowSet(d.rows) == Prepared(d.live, s.index)
     && Serialized(InsertAll(s, d.rows), deliveries[1..]))
  }

  function Replay(s: Store, deliveries: seq<Write>): Store
    decreases |deliveries|
  {
    if deliveries == [] then s else Replay(InsertAll(s, deliveries[0].rows), deliveries[1..])
  }

  ghost predicate ReplaysTo(before: map<Key, Fact>, deliveries: seq<Write>, after: map<Key, Fact>)
    decreases |deliveries|
  {
    if deliveries == [] then before == after
    else exists middle :: Updated(before, deliveries[0].live, middle) && ReplaysTo(middle, deliveries[1..], after)
  }

  lemma {:induction false} SerializedRunsRefinePlainMap(s: Store, deliveries: seq<Write>)
    requires Settled(s) && Serialized(s, deliveries)
    ensures Settled(Replay(s, deliveries))
    ensures ReplaysTo(Plain(s), deliveries, Plain(Replay(s, deliveries)))
    decreases |deliveries|
  {
    if deliveries != [] {
      var d := deliveries[0];
      DeliveryRefinesPlainMap(s, d.live, d.revision, d.rows);
      SerializedRunsRefinePlainMap(InsertAll(s, d.rows), deliveries[1..]);
    }
  }

  lemma SettledMeansOneDay(s: Store, key: Key, a: Day, b: Day)
    requires Settled(s) && Live(s, key, a) && Live(s, key, b)
    ensures a == b
  {}
}
