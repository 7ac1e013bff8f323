/**
 * The rows of one delivery: versioning them, adding the tombstones of the facts that change day, and
 * reading the day links back from the stored plan.
 */
module DeliveryPartitions {
  import opened Contract
  import opened DirtyGraphSelection
  import opened FactStore
  import opened CoordinatorModel
  import DayGraph

  datatype RowError = ConflictingIdentities | LaterRevision | NoReplacement

  /** A priced row before versioning; equal rows have equal hashes and different rows do not. */
  datatype RawRow = RawRow(identity: string, day: Day, content: string)

  function Version(category: nat, raw: RawRow, revision: nat): Row {
    Row(Key(category, raw.identity), raw.day, revision, false, raw.content)
  }

  ghost predicate Conflicting(raw: seq<RawRow>) {
    exists i, j :: 0 <= i < |raw| && 0 <= j < |raw| && raw[i].identity == raw[j].identity && raw[i] != raw[j]
  }

  ghost predicate DistinctKeys(rows: seq<Row>) {
    forall i, j :: 0 <= i < j < |rows| ==> rows[i].key != rows[j].key
  }

  function VersionedSet(category: nat, raw: seq<RawRow>, revision: nat): set<Row> {
    set r | r in raw :: Version(category, r, revision)
  }

  /** One row for each identity. Repeats collapse; two different rows of one identity are refused. */
  method VersionCategory(category: nat, raw: seq<RawRow>, revision: nat) returns (result: Result<seq<Row>, RowError>)
    ensures result.Err? <==> Conflicting(raw)
    ensures result.Err? ==> result.error == ConflictingIdentities
    ensures result.Ok? ==> DistinctKeys(result.value) && RowSet(result.value) == VersionedSet(category, raw, revision)
  {
    var unique: seq<Row> := [];
    var seen: map<string, RawRow> := map[];
    for i := 0 to |raw|
      invariant DistinctKeys(unique) && RowSet(unique) == VersionedSet(category, raw[..i], revision)
      invariant forall id :: id in seen ==> seen[id].identity == id && seen[id] in raw[..i]
      invariant forall r :: r in raw[..i] ==> r.identity in seen && seen[r.identity] == r
    {
      var r := raw[i];
      assert raw[..i + 1] == raw[..i] + [r];
      if r.identity in seen {
        if seen[r.identity] != r {
          var j :| 0 <= j < i && raw[j] == seen[r.identity];
          assert Conflicting(raw);
          return Err(ConflictingIdentities);
        }
        assert VersionedSet(category, raw[..i + 1], revision) == VersionedSet(category, raw[..i], revision);
      } else {
        var row := Version(category, r, revision);
        NewKey(category, raw[..i], revision, unique, r);
        unique := unique + [row];
        seen := seen[r.identity := r];
      }
    }
    assert raw[..|raw|] == raw;
    return Ok(unique);
  }

  lemma NewKey(category: nat, done: seq<RawRow>, revision: nat, unique: seq<Row>, r: RawRow)
    requires RowSet(unique) == VersionedSet(category, done, revision)
    requires forall q :: q in done ==> q.identity != r.identity
    ensures forall k :: 0 <= k < |unique| ==> unique[k].key != Key(category, r.identity)
    ensures VersionedSet(category, done + [r], revision) == RowSet(unique + [Version(category, r, revision)])
  {
    forall k | 0 <= k < |unique| ensures unique[k].key != Key(category, r.identity) {
      assert unique[k] in RowSet(unique);
    }
    assert RowSet(unique + [Version(category, r, revision)]) == RowSet(unique) + {Version(category, r, revision)};
    assert VersionedSet(category, done + [r], revision) ==
      VersionedSet(category, done, revision) + {Version(category, r, revision)};
  }

  // ---- tombstones ----

  /** The tombstones of a list of rows, in its order. */
  function Tombstones(rows: seq<Row>, index: map<Key, Row>): seq<Row> {
    if rows == [] then []
    else
      var init, last := rows[..|rows| - 1], rows[|rows| - 1];
      Tombstones(init, index) + if Moves(last, index) then [Tombstone(last, index)] else []
  }

  /** Category by category, the list the plan adds its tombstones to. */
  function PreparedList(rows: seq<Row>, index: map<Key, Row>): seq<Row> {
    rows + Tombstones(rows, index)
  }

  lemma {:induction false} TombstoneSet(rows: seq<Row>, index: map<Key, Row>)
    ensures RowSet(Tombstones(rows, index)) == set row | row in rows && Moves(row, index) :: Tombstone(row, index)
  {
    if rows != [] {
      var init, last := rows[..|rows| - 1], rows[|rows| - 1];
      TombstoneSet(init, index);
      assert rows == init + [last];
      forall t ensures t in RowSet(Tombstones(rows, index)) <==>
                       t in set row | row in rows && Moves(row, index) :: Tombstone(row, index)
      {
        if t in RowSet(Tombstones(init, index)) {
          var row :| row in init && Moves(row, index) && t == Tombstone(row, index);
          assert row in rows;
        }
      }
    }
  }

  /** The list form and the set form of a plan are the same rows. */
  lemma PreparedListIsPrepared(rows: seq<Row>, index: map<Key, Row>)
    ensures RowSet(PreparedList(rows, index)) == Prepared(RowSet(rows), index)
  {
    TombstoneSet(rows, index);
    assert RowSet(rows + Tombstones(rows, index)) == RowSet(rows) + RowSet(Tombstones(rows, index));
    assert (set row | row in rows && Moves(row, index) :: Tombstone(row, index)) ==
           (set row | row in RowSet(rows) && Moves(row, index) :: Tombstone(row, index));
  }

  function RowDays(rows: seq<Row>): set<Day> {
    set row | row in rows :: row.day
  }

  function AllDays(lists: seq<seq<Row>>): set<Day> {
    set c, row | 0 <= c < |lists| && row in lists[c] :: row.day
  }

  /** An identity of the delivery is already stored with this or a later revision. */
  ghost predicate Overtaken(lists: seq<seq<Row>>, index: map<Key, Row>, revision: nat) {
    exists c, i :: 0 <= c < |lists| && 0 <= i < |lists[c]| &&
      lists[c][i].key in index && index[lists[c][i].key].revision >= revision
  }

  // ---- links ----

  /** The day of an identity's live row; a later row of a list replaces an earlier one. */
  function LiveDay(rows: seq<Row>, key: Key): Option<Day> {
    if rows == [] then None
    else
      var last := rows[|rows| - 1];
      if !last.deleted && last.key == key then Some(last.day) else LiveDay(rows[..|rows| - 1], key)
  }

  function MoveOf(rows: seq<Row>, row: Row): Option<Move> {
    match LiveDay(rows, row.key)
    case None => None
    case Some(day) => if day == row.day then None else Some(Move(row.day, day))
  }

  /** The moves of a list whose every tombstone has a replacement. */
  function MovesOf(rows: seq<Row>): set<Move> {
    set row | row in rows && row.deleted && MoveOf(rows, row).Some? :: MoveOf(rows, row).value
  }

  function AllMoves(lists: seq<seq<Row>>): set<Move> {
    set c, m | 0 <= c < |lists| && m in MovesOf(lists[c]) :: m
  }

  ghost predicate Replaced(lists: seq<seq<Row>>) {
    forall c, row :: 0 <= c < |lists| && row in lists[c] && row.deleted ==> MoveOf(lists[c], row).Some?
  }

  method LiveDays(rows: seq<Row>) returns (live: map<Key, Day>)
    ensures forall key :: (key in live <==> LiveDay(rows, key).Some?)
    ensures forall key :: key in live ==> LiveDay(rows, key) == Some(live[key])
  {
    live := map[];
    for i := 0 to |rows|
      invariant forall key :: (key in live <==> LiveDay(rows[..i], key).Some?)
      invariant forall key :: key in live ==> LiveDay(rows[..i], key) == Some(live[key])
    {
      assert rows[..i + 1][..i] == rows[..i];
      if !rows[i].deleted {
        live := live[rows[i].key := rows[i].day];
      }
    }
    assert rows[..|rows|] == rows;
  }

  function MoveSet(moves: seq<Move>): set<Move> {
    set m | m in moves
  }

  /** The moves of the tombstones seen so far. */
  function MovesSeen(rows: seq<Row>, i: nat): set<Move>
    requires i <= |rows|
  {
    set row | row in rows[..i] && row.deleted && MoveOf(rows, row).Some? :: MoveOf(rows, row).value
  }

  lemma SeenOne(rows: seq<Row>, i: nat)
    requires i < |rows|
    ensures MovesSeen(rows, i + 1) ==
      MovesSeen(rows, i) + if rows[i].deleted && MoveOf(rows, rows[i]).Some? then {MoveOf(rows, rows[i]).value} else {}
  {
    assert rows[..i + 1] == rows[..i] + [rows[i]];
  }

  lemma SeenAll(rows: seq<Row>)
    ensures MovesSeen(rows, |rows|) == MovesOf(rows)
  {
    assert rows[..|rows|] == rows;
  }

  method CategoryLinks(rows: seq<Row>, before: seq<Move>) returns (result: Result<seq<Move>, RowError>)
    ensures result.Ok? <==> Replaced([rows])
    ensures result.Err? ==> result.error == NoReplacement
    ensures result.Ok? ==> MoveSet(result.value) == MoveSet(before) + MovesOf(rows)
  {
    var live := LiveDays(rows);
    var moves := before;
    for i := 0 to |rows|
      invariant forall k :: 0 <= k < i && rows[k].deleted ==> MoveOf(rows, rows[k]).Some?
      invariant MoveSet(moves) == MoveSet(before) + MovesSeen(rows, i)
    {
      SeenOne(rows, i);
      var row := rows[i];
      if row.deleted {
        if row.key !in live || live[row.key] == row.day {
          assert row in [rows][0];
          return Err(NoReplacement);
        }
        var move := Move(row.day, live[row.key]);
        assert MoveOf(rows, row) == Some(move);
        if move !in moves {
          assert MoveSet(moves + [move]) == MoveSet(moves) + {move};
          moves := moves + [move];
        }
      }
    }
    SeenAll(rows);
    assert forall c, row :: 0 <= c < |[rows]| && row in [rows][c] && row.deleted ==> MoveOf([rows][c], row).Some?;
    return Ok(moves);
  }

  method FindOvertaken(lists: seq<seq<Row>>, index: map<Key, Row>, revision: nat) returns (found: bool)
    ensures found <==> Overtaken(lists, index, revision)
  {
    for c := 0 to |lists|
      invariant forall b, k :: 0 <= b < c && 0 <= k < |lists[b]| && lists[b][k].key in index ==>
        index[lists[b][k].key].revision < revision
    {
      for i := 0 to |lists[c]|
        invariant forall k :: 0 <= k < i && lists[c][k].key in index ==> index[lists[c][k].key].revision < revision
      {
        if lists[c][i].key in index && index[lists[c][i].key].revision >= revision {
          return true;
        }
      }
    }
    return false;
  }

  /** The tombstones of one category's rows, with every day the rows and the tombstones touch. */
  method CategoryTombstones(list: seq<Row>, index: map<Key, Row>) returns (tombstones: seq<Row>, touched: set<Day>)
    ensures tombstones == Tombstones(list, index)
    ensures touched == RowDays(list + tombstones)
  {
    tombstones, touched := [], {};
    for i := 0 to |list|
      invariant tombstones == Tombstones(list[..i], index)
      invariant touched == RowDays(list[..i]) + RowDays(tombstones)
    {
      var row := list[i];
      assert list[..i + 1] == list[..i] + [row];
      assert list[..i + 1][..i] == list[..i];
      touched := touched + {row.day};
      if row.key in index && index[row.key].day != row.day {
        var tombstone := row.(day := index[row.key].day, deleted := true);
        assert RowDays(tombstones + [tombstone]) == RowDays(tombstones) + {tombstone.day};
        tombstones := tombstones + [tombstone];
        touched := touched + {index[row.key].day};
      }
    }
    assert list[..|list|] == list;
    assert RowDays(list + tombstones) == RowDays(list) + RowDays(tombstones);
  }

  class DeliveryRows {
    const revision: nat
    /** One list of rows for each category. */
    var rows: seq<seq<Row>>

    constructor (revision: nat, rows: seq<seq<Row>>)
      ensures this.revision == revision && this.rows == rows
    {
      this.revision := revision;
      this.rows := rows;
    }

    /**
     * Adds a tombstone for each row whose identity is indexed on another day, and returns the days
     * the plan touches. A lookup that shows this or a later revision leaves the rows untouched.
     */
    method PreparePartitions(index: map<Key, Row>) returns (result: Result<seq<Day>, RowError>)
      modifies `rows
      ensures result.Err? <==> Overtaken(old(rows), index, revision)
      ensures result.Err? ==> result.error == LaterRevision && rows == old(rows)
      ensures result.Ok? ==> |rows| == |old(rows)| && forall c :: 0 <= c < |rows| ==> rows[c] == PreparedList(old(rows)[c], index)
      ensures result.Ok? ==> Ascending(result.value) && DaySet(result.value) == AllDays(rows)
    {
      var overtaken := FindOvertaken(rows, index, revision);
      if overtaken {
        return Err(LaterRevision);
      }
      var dirtyDays: set<Day> := {};
      var c := 0;
      while c < |rows|
        invariant 0 <= c <= |rows| == |old(rows)|
        invariant forall k :: 0 <= k < c ==> rows[k] == PreparedList(old(rows)[k], index)
        invariant forall k :: c <= k < |rows| ==> rows[k] == old(rows)[k]
        invariant dirtyDays == AllDays(rows[..c])
      {
        var list := rows[c];
        var tombstones, touched := CategoryTombstones(list, index);
        ghost var was := rows;
        rows := rows[c := list + tombstones];
        assert rows[..c + 1] == was[..c] + [list + tombstones];
        OneMoreList(was[..c], list + tombstones);
        dirtyDays := dirtyDays + touched;
        c := c + 1;
      }
      assert rows[..|rows|] == rows;
      var days := DaysOf(dirtyDays);
      return Ok(days);
    }

    /** The day moves of the stored plan, or an error when a tombstone has no live row elsewhere. */
    method PartitionLinks() returns (result: Result<seq<Move>, RowError>)
      ensures result.Ok? <==> Replaced(rows)
      ensures result.Err? ==> result.error == NoReplacement
      ensures result.Ok? ==> MoveSet(result.value) == AllMoves(rows)
    {
      var moves: seq<Move> := [];
      for c := 0 to |rows|
        invariant Replaced(rows[..c])
        invariant MoveSet(moves) == AllMoves(rows[..c])
      {
        var linked := CategoryLinks(rows[c], moves);
        assert [rows[c]][0] == rows[c];
        if linked.Err? {
          return Err(linked.error);
        }
        assert rows[..c + 1] == rows[..c] + [rows[c]];
        MoreMoves(rows[..c], rows[c]);
        moves := linked.value;
      }
      assert rows[..|rows|] == rows;
      return Ok(moves);
    }
  }

  lemma OneMoreList(lists: seq<seq<Row>>, list: seq<Row>)
    ensures AllDays(lists + [list]) == AllDays(lists) + RowDays(list)
  {
    forall d ensures d in AllDays(lists + [list]) <==> d in AllDays(lists) + RowDays(list) {
      if d in AllDays(lists) {
        var c, row :| 0 <= c < |lists| && row in lists[c] && row.day == d;
        assert row in (lists + [list])[c];
      }
      if d in RowDays(list) {
        var row :| row in list && row.day == d;
        assert row in (lists + [list])[|lists|];
      }
    }
  }

  lemma MoreMoves(lists: seq<seq<Row>>, list: seq<Row>)
    ensures AllMoves(lists + [list]) == AllMoves(lists) + MovesOf(list)
  {
    forall m ensures m in AllMoves(lists + [list]) <==> m in AllMoves(lists) + MovesOf(list) {
      if m in AllMoves(lists) {
        var c :| 0 <= c < |lists| && m in MovesOf(lists[c]);
        assert m in MovesOf((lists + [list])[c]);
      }
      if m in MovesOf(list) {
        assert m in MovesOf((lists + [list])[|lists|]);
      }
    }
  }

  method DaysOf(days: set<Day>) returns (sorted: seq<Day>)
    ensures Ascending(sorted) && DaySet(sorted) == days
  {
    sorted := [];
    var rest := days;
    while rest != {}
      invariant rest <= days && Ascending(sorted) && DaySet(sorted) == days - rest
      decreases |rest|
    {
      DayGraph.NonEmpty(rest);
      var d :| d in rest;
      sorted := InsertDay(sorted, d);
      rest := rest - {d};
    }
  }

  // ---- the links of a prepared plan ----

  /** What versioning leaves in each category: live rows, one for each identity. */
  ghost predicate Canonical(rows: seq<Row>) {
    DistinctKeys(rows) && forall row :: row in rows ==> !row.deleted
  }

  lemma {:induction false} LiveDaySkipsTombstones(rows: seq<Row>, dead: seq<Row>, key: Key)
    requires forall row :: row in dead ==> row.deleted
    ensures LiveDay(rows + dead, key) == LiveDay(rows, key)
  {
    if dead == [] {
      assert rows + dead == rows;
    } else {
      assert (rows + dead)[..|rows + dead| - 1] == rows + dead[..|dead| - 1];
      LiveDaySkipsTombstones(rows, dead[..|dead| - 1], key);
    }
  }

  lemma {:induction false} LiveDayOfRow(rows: seq<Row>, i: nat)
    requires Canonical(rows) && i < |rows|
    ensures LiveDay(rows, rows[i].key) == Some(rows[i].day)
  {
    if i < |rows| - 1 {
      LiveDayOfRow(rows[..|rows| - 1], i);
    }
  }

  lemma TombstonesAreDeleted(rows: seq<Row>, index: map<Key, Row>)
    ensures forall t :: t in Tombstones(rows, index) ==>
      t.deleted && exists row :: row in rows && Moves(row, index) && t == Tombstone(row, index)
  {
    TombstoneSet(rows, index);
    forall t | t in Tombstones(rows, index)
      ensures t.deleted && exists row :: row in rows && Moves(row, index) && t == Tombstone(row, index)
    {
      assert t in RowSet(Tombstones(rows, index));
    }
  }

  lemma PreparedMove(rows: seq<Row>, index: map<Key, Row>, row: Row)
    requires Canonical(rows) && row in rows && Moves(row, index)
    ensures Tombstone(row, index) in PreparedList(rows, index)
    ensures MoveOf(PreparedList(rows, index), Tombstone(row, index)) == Some(Move(index[row.key].day, row.day))
  {
    var i :| 0 <= i < |rows| && rows[i] == row;
    LiveDayOfRow(rows, i);
    TombstonesAreDeleted(rows, index);
    LiveDaySkipsTombstones(rows, Tombstones(rows, index), row.key);
    TombstoneSet(rows, index);
    assert Tombstone(row, index) in RowSet(Tombstones(rows, index));
  }

  /** The moves of one category: from the indexed day to the new one, for each row that changes day. */
  function MovedPairs(rows: seq<Row>, index: map<Key, Row>): set<Move> {
    set row | row in rows && Moves(row, index) :: Move(index[row.key].day, row.day)
  }

  /**
   * Reading the links back from a prepared plan never fails, and gives exactly the (old, new) pairs
   * of the facts that change day.
   */
  lemma PreparedLinksAreTheMoves(rows: seq<Row>, index: map<Key, Row>)
    requires Canonical(rows)
    ensures forall row :: row in PreparedList(rows, index) && row.deleted ==> MoveOf(PreparedList(rows, index), row).Some?
    ensures MovesOf(PreparedList(rows, index)) == MovedPairs(rows, index)
  {
    var prepared := PreparedList(rows, index);
    TombstonesAreDeleted(rows, index);
    forall t | t in prepared && t.deleted
      ensures MoveOf(prepared, t).Some? && MoveOf(prepared, t).value in MovedPairs(rows, index)
    {
      var row :| row in rows && Moves(row, index) && t == Tombstone(row, index);
      PreparedMove(rows, index, row);
    }
    forall m | m in MovedPairs(rows, index) ensures m in MovesOf(prepared) {
      var row :| row in rows && Moves(row, index) && m == Move(index[row.key].day, row.day);
      PreparedMove(rows, index, row);
    }
  }

  /** The plan of a whole delivery: prepared, its links read back, and no error left but overtaking. */
  method PlanDelivery(delivery: DeliveryRows, index: map<Key, Row>)
    returns (days: Result<seq<Day>, RowError>, moves: seq<Move>)
    requires forall c :: 0 <= c < |delivery.rows| ==> Canonical(delivery.rows[c])
    modifies delivery`rows
    ensures days.Err? <==> Overtaken(old(delivery.rows), index, delivery.revision)
    ensures days.Ok? ==> DaySet(days.value) == AllDays(delivery.rows)
    ensures days.Err? ==> delivery.rows == old(delivery.rows)
    ensures days.Ok? ==> |delivery.rows| == |old(delivery.rows)|
    ensures days.Ok? ==> forall c :: 0 <= c < |delivery.rows| ==>
      RowSet(delivery.rows[c]) == Prepared(RowSet(old(delivery.rows)[c]), index)
    ensures days.Ok? ==> forall m :: m in moves <==>
      exists c :: 0 <= c < |old(delivery.rows)| && m in MovedPairs(old(delivery.rows)[c], index)
    ensures days.Ok? ==> LinkNodes(LinksOf(moves)) <= DaySet(days.value)
  {
    days := delivery.PreparePartitions(index);
    moves := [];
    if days.Err? {
      return;
    }
    ghost var lists := old(delivery.rows);
    forall c | 0 <= c < |lists|
      ensures forall row :: row in delivery.rows[c] && row.deleted ==> MoveOf(delivery.rows[c], row).Some?
      ensures MovesOf(delivery.rows[c]) == MovedPairs(lists[c], index)
      ensures RowSet(delivery.rows[c]) == Prepared(RowSet(lists[c]), index)
    {
      PreparedLinksAreTheMoves(lists[c], index);
      PreparedListIsPrepared(lists[c], index);
    }
    var linked := delivery.PartitionLinks();
    moves := linked.value;
    MovesStayInside(delivery.rows, moves);
    forall m ensures m in moves <==> exists c :: 0 <= c < |lists| && m in MovedPairs(lists[c], index) {
      assert m in moves <==> m in MoveSet(moves);
      if c :| 0 <= c < |lists| && m in MovedPairs(lists[c], index) {
        assert m in MovesOf(delivery.rows[c]);
      }
    }
  }

  lemma LiveDayIsDay(rows: seq<Row>, key: Key)
    ensures LiveDay(rows, key).Some? ==> LiveDay(rows, key).value in RowDays(rows)
  {}

  /** Both ends of every move are days of the plan, as the coordinator demands of a link. */
  lemma MovesStayInside(lists: seq<seq<Row>>, moves: seq<Move>)
    requires MoveSet(moves) == AllMoves(lists)
    ensures LinkNodes(LinksOf(moves)) <= AllDays(lists)
  {
    forall m | m in moves ensures m.oldDay in AllDays(lists) && m.newDay in AllDays(lists) {
      assert m in MoveSet(moves);
      var c :| 0 <= c < |lists| && m in MovesOf(lists[c]);
      var row :| row in lists[c] && row.deleted && MoveOf(lists[c], row) == Some(m);
      LiveDayIsDay(lists[c], row.key);
      var live :| live in lists[c] && live.day == m.newDay;
    }
  }
}
