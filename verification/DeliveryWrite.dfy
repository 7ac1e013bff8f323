/**
 * Writing one category of a delivery, and finding out from the receipt index whether an earlier,
 * ambiguous write of it took effect.
 */
module DeliveryWrite {
  import opened Contract
  import opened FactStore

  /** At most this many day partitions in one insert. */
  const MAX_FACT_INSERT_PARTITIONS := 30

  datatype ReceiptKey = ReceiptKey(identity: string, day: Day, deleted: bool)

  datatype Receipt = Receipt(key: ReceiptKey, hash: string)

  datatype ReceiptError = UnexpectedIdentity | ContentConflict

  function ExpectedReceipt(row: Row): Receipt {
    Receipt(ReceiptKey(row.key.identity, row.day, row.deleted), row.content)
  }

  function ReceiptKeyOf(row: Row): ReceiptKey {
    ExpectedReceipt(row).key
  }

  function KeysOf(rows: seq<Row>): set<ReceiptKey> {
    set row | row in rows :: ReceiptKeyOf(row)
  }

  // ---- reading the receipt index ----

  predicate Unexpected(receipts: seq<Receipt>, rows: seq<Row>) {
    exists r :: r in receipts && r.key !in KeysOf(rows)
  }

  /** Two receipts of one identity, or a receipt and its row, differ in content. */
  predicate Clash(receipts: seq<Receipt>, rows: seq<Row>) {
    || (exists r, q :: r in receipts && q in receipts && r.key == q.key && r.hash != q.hash)
    || (exists r, row :: r in receipts && row in rows && r.key == ReceiptKeyOf(row) && r.hash != row.content)
  }

  predicate Distinct(rows: seq<Row>) {
    forall i, j :: 0 <= i < j < |rows| ==> ReceiptKeyOf(rows[i]) != ReceiptKeyOf(rows[j])
  }

  /** Every row has its receipt, and no two rows share one. */
  predicate Confirmed(receipts: seq<Receipt>, rows: seq<Row>) {
    Distinct(rows) && forall row :: row in rows ==> ExpectedReceipt(row) in receipts
  }

  /** The receipts read so far, by identity. */
  ghost predicate Read(actual: map<ReceiptKey, string>, receipts: seq<Receipt>, rows: seq<Row>) {
    && (forall r :: r in receipts ==> r.key in actual && actual[r.key] == r.hash)
    && (forall k :: k in actual ==> k in KeysOf(rows) && Receipt(k, actual[k]) in receipts)
  }

  method ReadReceipts(receipts: seq<Receipt>, rows: seq<Row>) returns (result: Result<map<ReceiptKey, string>, ReceiptError>)
    ensures result.Ok? ==> Read(result.value, receipts, rows)
    ensures result.Err? ==> Unexpected(receipts, rows) || Clash(receipts, rows)
    ensures result == Err(UnexpectedIdentity) ==> Unexpected(receipts, rows)
  {
    var actual: map<ReceiptKey, string> := map[];
    for i := 0 to |receipts|
      invariant Read(actual, receipts[..i], rows)
    {
      var r := receipts[i];
      assert receipts[..i + 1] == receipts[..i] + [r];
      if r.key !in KeysOf(rows) {
        return Err(UnexpectedIdentity);
      }
      if r.key in actual && actual[r.key] != r.hash {
        assert Receipt(r.key, actual[r.key]) in receipts;
        return Err(ContentConflict);
      }
      actual := actual[r.key := r.hash];
    }
    assert receipts[..|receipts|] == receipts;
    return Ok(actual);
  }

  lemma KeysAppend(rows: seq<Row>, row: Row)
    ensures KeysOf(rows + [row]) == KeysOf(rows) + {ReceiptKeyOf(row)}
  {}

  lemma DistinctAppend(rows: seq<Row>, row: Row)
    ensures Distinct(rows + [row]) <==> Distinct(rows) && ReceiptKeyOf(row) !in KeysOf(rows)
  {
    var more := rows + [row];
    if Distinct(more) {
      forall i, j | 0 <= i < j < |rows| ensures ReceiptKeyOf(rows[i]) != ReceiptKeyOf(rows[j]) {
        assert ReceiptKeyOf(more[i]) != ReceiptKeyOf(more[j]);
      }
      forall i | 0 <= i < |rows| ensures ReceiptKeyOf(rows[i]) != ReceiptKeyOf(row) {
        assert ReceiptKeyOf(more[i]) != ReceiptKeyOf(more[|rows|]);
      }
    }
  }

  lemma {:induction false} KeysCount(rows: seq<Row>)
    ensures |KeysOf(rows)| <= |rows|
    ensures |KeysOf(rows)| == |rows| <==> Distinct(rows)
  {
    if rows != [] {
      var init, last := rows[..|rows| - 1], rows[|rows| - 1];
      assert rows == init + [last];
      KeysCount(init);
      KeysAppend(init, last);
      DistinctAppend(init, last);
    }
  }

  lemma SubsetCount(a: set<ReceiptKey>, b: set<ReceiptKey>)
    requires a <= b
    ensures |a| <= |b| && (|a| == |b| ==> a == b)
  {
    assert b == a + (b - a);
    if |a| == |b| {
      assert |b - a| == 0;
    }
  }

  /** As many receipts as rows, and one for every row: then the rows are told apart by them. */
  lemma CompleteMeansConfirmed(actual: map<ReceiptKey, string>, receipts: seq<Receipt>, rows: seq<Row>)
    requires Read(actual, receipts, rows) && !Clash(receipts, rows)
    ensures (|actual| == |rows| && forall row :: row in rows ==> ReceiptKeyOf(row) in actual) <==> Confirmed(receipts, rows)
  {
    assert |actual| == |actual.Keys|;
    SubsetCount(actual.Keys, KeysOf(rows));
    KeysCount(rows);
    forall row | row in rows
      ensures ReceiptKeyOf(row) in actual <==> ExpectedReceipt(row) in receipts
    {
      if ReceiptKeyOf(row) in actual {
        assert Receipt(ReceiptKeyOf(row), actual[ReceiptKeyOf(row)]) in receipts;
      }
    }
    if forall row :: row in rows ==> ReceiptKeyOf(row) in actual {
      assert actual.Keys == KeysOf(rows);
    }
  }

  lemma NoClash(actual: map<ReceiptKey, string>, receipts: seq<Receipt>, rows: seq<Row>)
    requires Read(actual, receipts, rows)
    requires forall row :: row in rows && ReceiptKeyOf(row) in actual ==> actual[ReceiptKeyOf(row)] == row.content
    ensures !Clash(receipts, rows) && !Unexpected(receipts, rows)
  {}

  /**
   * Whether an earlier write of the category took effect as a whole. It is an error exactly when a
   * receipt is for no row or disagrees in content.
   */
  method DeliveryCategoryIsPresent(receipts: seq<Receipt>, rows: seq<Row>) returns (result: Result<bool, ReceiptError>)
    ensures result.Err? <==> Unexpected(receipts, rows) || Clash(receipts, rows)
    ensures result.Ok? ==> (result.value <==> Confirmed(receipts, rows))
  {
    var read := ReadReceipts(receipts, rows);
    if read.Err? {
      return Err(read.error);
    }
    var actual := read.value;
    var complete := |actual| == |rows|;
    for i := 0 to |rows|
      invariant complete <==> |actual| == |rows| && forall j :: 0 <= j < i ==> ReceiptKeyOf(rows[j]) in actual
      invariant forall j :: 0 <= j < i && ReceiptKeyOf(rows[j]) in actual ==> actual[ReceiptKeyOf(rows[j])] == rows[j].content
    {
      var key := ReceiptKeyOf(rows[i]);
      if key !in actual {
        complete := false;
      } else if actual[key] != rows[i].content {
        assert Receipt(key, actual[key]) in receipts && rows[i] in rows;
        return Err(ContentConflict);
      }
    }
    NoClash(actual, receipts, rows);
    CompleteMeansConfirmed(actual, receipts, rows);
    return Ok(complete);
  }

  /** The index holds receipts of landed rows of this delivery and category only, repeated or not. */
  ghost predicate Indexes(receipts: seq<Receipt>, landed: set<Row>) {
    forall r :: r in receipts ==> exists row :: row in landed && ExpectedReceipt(row) == r
  }

  /** A confirmed category has landed row by row, and a repeated write of it is safe to skip. */
  lemma ConfirmedMeansLanded(receipts: seq<Receipt>, rows: seq<Row>, landed: set<Row>, category: nat, revision: nat)
    requires Indexes(receipts, landed) && Confirmed(receipts, rows)
    requires forall row :: row in landed || row in rows ==> row.key.category == category && row.revision == revision
    ensures forall row :: row in rows ==> row in landed
  {
    forall row | row in rows ensures row in landed {
      var other :| other in landed && ExpectedReceipt(other) == ExpectedReceipt(row);
      assert other == row;
    }
  }

  // ---- writing ----

  function OfDay(rows: seq<Row>, day: Day): seq<Row> {
    if rows == [] then []
    else OfDay(rows[..|rows| - 1], day) + if rows[|rows| - 1].day == day then [rows[|rows| - 1]] else []
  }

  /** The days of the rows, in the order they first come up. */
  function DaysOf(rows: seq<Row>): seq<Day> {
    if rows == [] then []
    else
      var init, last := rows[..|rows| - 1], rows[|rows| - 1];
      DaysOf(init) + if last.day in DaysOf(init) then [] else [last.day]
  }

  function Groups(rows: seq<Row>): seq<seq<Row>> {
    var days := DaysOf(rows);
    seq(|days|, i requires 0 <= i < |days| => OfDay(rows, days[i]))
  }

  function Flat(groups: seq<seq<Row>>): seq<Row> {
    if groups == [] then [] else Flat(groups[..|groups| - 1]) + groups[|groups| - 1]
  }

  lemma {:induction false} DaysAreDistinct(rows: seq<Row>)
    ensures forall i, j :: 0 <= i < j < |DaysOf(rows)| ==> DaysOf(rows)[i] != DaysOf(rows)[j]
    ensures forall row :: row in rows ==> row.day in DaysOf(rows)
  {
    if rows != [] {
      var init, last := rows[..|rows| - 1], rows[|rows| - 1];
      assert rows == init + [last];
      DaysAreDistinct(init);
    }
  }

  lemma {:induction false} DayCount(rows: seq<Row>, day: Day, row: Row)
    ensures multiset(OfDay(rows, day))[row] == if row.day == day then multiset(rows)[row] else 0
  {
    if rows != [] {
      var init, last := rows[..|rows| - 1], rows[|rows| - 1];
      assert rows == init + [last];
      DayCount(init, day, row);
    }
  }

  /** The groups are the rows of the days, one for each. */
  ghost predicate AreGroups(rows: seq<Row>, days: seq<Day>, groups: seq<seq<Row>>) {
    && |groups| == |days|
    && (forall i :: 0 <= i < |days| ==> groups[i] == OfDay(rows, days[i]))
    && (forall i, j :: 0 <= i < j < |days| ==> days[i] != days[j])
  }

  lemma AreGroupsPrefix(rows: seq<Row>, days: seq<Day>, groups: seq<seq<Row>>, n: nat)
    requires AreGroups(rows, days, groups) && |groups| == n + 1
    ensures AreGroups(rows, days[..n], groups[..n]) && days[n] !in days[..n] && days == days[..n] + [days[n]]
  {}

  lemma {:induction false} GroupCount(rows: seq<Row>, days: seq<Day>, groups: seq<seq<Row>>, row: Row)
    requires AreGroups(rows, days, groups)
    ensures multiset(Flat(groups))[row] == if row.day in days then multiset(rows)[row] else 0
  {
    if groups != [] {
      var n := |groups| - 1;
      AreGroupsPrefix(rows, days, groups, n);
      GroupCount(rows, days[..n], groups[..n], row);
      DayCount(rows, days[n], row);
    }
  }

  /** The groups hold every row, as often as it was given. */
  lemma GroupsKeepRows(rows: seq<Row>)
    ensures multiset(Flat(Groups(rows))) == multiset(rows)
  {
    DaysAreDistinct(rows);
    forall row ensures multiset(Flat(Groups(rows)))[row] == multiset(rows)[row] {
      GroupCount(rows, DaysOf(rows), Groups(rows), row);
      if row.day !in DaysOf(rows) {
        assert row !in rows;
      }
    }
  }

  /** Groups the rows by day. */
  method Partition(rows: seq<Row>) returns (groups: seq<seq<Row>>)
    ensures groups == Groups(rows)
  {
    var days: seq<Day> := [];
    var partitions: map<Day, seq<Row>> := map[];
    for i := 0 to |rows|
      invariant days == DaysOf(rows[..i])
      invariant forall d :: d in partitions <==> d in days
      invariant forall d :: d in partitions ==> partitions[d] == OfDay(rows[..i], d)
    {
      var row := rows[i];
      assert rows[..i + 1][..i] == rows[..i];
      NewDayIsEmpty(rows[..i], row.day);
      var partition := if row.day in partitions then partitions[row.day] else [];
      if row.day !in partitions {
        days := days + [row.day];
      }
      partitions := partitions[row.day := partition + [row]];
    }
    assert rows[..|rows|] == rows;
    groups := seq(|days|, i requires 0 <= i < |days| => if days[i] in partitions then partitions[days[i]] else []);
  }

  lemma {:induction false} NewDayIsEmpty(rows: seq<Row>, day: Day)
    ensures day !in DaysOf(rows) ==> OfDay(rows, day) == []
  {
    if rows != [] {
      var init := rows[..|rows| - 1];
      NewDayIsEmpty(init, day);
    }
  }

  /** Some consecutive groups, at most as many as one insert takes. */
  ghost predicate IsInsert(insert: seq<Row>, groups: seq<seq<Row>>) {
    exists lo, hi :: 0 <= lo < hi <= |groups| && hi - lo <= MAX_FACT_INSERT_PARTITIONS && insert == Flat(groups[lo..hi])
  }

  lemma {:induction false} FlatConcat(a: seq<seq<Row>>, b: seq<seq<Row>>)
    ensures Flat(a + b) == Flat(a) + Flat(b)
  {
    if b == [] {
      assert a + b == a;
    } else {
      assert (a + b)[..|a + b| - 1] == a + b[..|b| - 1];
      FlatConcat(a, b[..|b| - 1]);
    }
  }

  /** One more insert takes the next groups. */
  lemma InsertAppend(inserts: seq<seq<Row>>, groups: seq<seq<Row>>, offset: nat, end: nat)
    requires offset < end <= |groups| && end - offset <= MAX_FACT_INSERT_PARTITIONS
    requires Flat(inserts) == Flat(groups[..offset])
    ensures Flat(inserts + [Flat(groups[offset..end])]) == Flat(groups[..end])
    ensures IsInsert(Flat(groups[offset..end]), groups)
  {
    assert groups[..end] == groups[..offset] + groups[offset..end];
    FlatConcat(groups[..offset], groups[offset..end]);
    assert (inserts + [Flat(groups[offset..end])])[..|inserts|] == inserts;
  }

  /**
   * The inserts of a category: every row once, all rows of one day in one insert and in their order,
   * and few enough days in each.
   */
  method WriteDeliveryCategory(rows: seq<Row>) returns (inserts: seq<seq<Row>>)
    ensures Flat(inserts) == Flat(Groups(rows)) && multiset(Flat(inserts)) == multiset(rows)
    ensures forall insert :: insert in inserts ==> IsInsert(insert, Groups(rows))
  {
    var groups := Partition(rows);
    GroupsKeepRows(rows);
    inserts := InsertGroups(groups);
  }

  method InsertGroups(groups: seq<seq<Row>>) returns (inserts: seq<seq<Row>>)
    ensures Flat(inserts) == Flat(groups)
    ensures forall insert :: insert in inserts ==> IsInsert(insert, groups)
  {
    inserts := [];
    var offset := 0;
    while offset < |groups|
      invariant 0 <= offset <= |groups| && Flat(inserts) == Flat(groups[..offset])
      invariant forall insert :: insert in inserts ==> IsInsert(insert, groups)
    {
      var end := if |groups| < offset + MAX_FACT_INSERT_PARTITIONS then |groups| else offset + MAX_FACT_INSERT_PARTITIONS;
      InsertAppend(inserts, groups, offset, end);
      inserts := inserts + [Flat(groups[offset..end])];
      offset := end;
    }
    assert groups[..|groups|] == groups;
  }
}
