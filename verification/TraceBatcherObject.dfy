/**
 * The trace batcher: a durable queue that sends each trace once to every target. An insert is not
 * idempotent, so it is announced in a recovery record before it is tried; a record that a crash or
 * an unclear answer leaves behind holds its rows back until an operator says whether they were
 * written.
 */
module TraceBatcherObject {
  import opened Contract
  import opened Utf16

  datatype Target = Clean | Legacy

  predicate AllDifferent(targets: seq<Target>) {
    forall i, j :: 0 <= i < j < |targets| ==> targets[i] != targets[j]
  }

  const BATCH_SIZE := 10_000
  const MAX_NDJSON_BYTES := 900_000

  /** A queued trace: its text, or nothing when the text is stored in chunks, and its sent marks. */
  datatype TraceRow = TraceRow(inline: Units, sent: set<Target>)

  datatype RecordState = InFlight | Blocked(rejected: bool) | Resolved

  /** An announced or preserved insert: the rows of one attempt at one target. */
  datatype Record = Record(target: Target, ids: set<nat>, state: RecordState)

  datatype Pair = Pair(id: nat, target: Target)

  /** What a row was queued for: its ledger key and the text it must keep. */
  datatype Origin = Origin(key: string, data: Units)

  /** The text of a trace is JSON, so it is never empty. */
  type Text = s: Units | s != [] witness [0x30]

  datatype Entry = Entry(key: string, hash: string)

  /** One trace of a message: its ledger entry, unless its metadata is invalid, and its text. */
  datatype Trace = Trace(entry: Option<Entry>, data: Text)

  datatype Repair = Repair(key: string, oldHash: string, newHash: string)

  datatype MessageStatus = Inserted | Duplicate | Failed

  /** A selected row with its loaded text. */
  datatype Item = Item(id: nat, data: Units)

  datatype SendResult = Confirmed | BlockedRows | Retryable | Crashed

  /** The answer to one insert, by what it says about the rows. */
  datatype Answer = Written | NotWrittenRetry | NotWrittenTooLarge | NotWritten | Unclear | NoAnswer

  /** What was last heard of a row: the answer to its attempt, or that it cannot be sent. */
  datatype Said = Heard(answer: Answer) | CannotSend

  predicate Active(r: Record) {
    r.state.InFlight? || r.state.Blocked?
  }

  predicate HoldsRow(r: Record, t: Target, id: nat) {
    Active(r) && r.target == t && id in r.ids
  }

  /** A row waits in an active record of a target. */
  predicate Held(records: map<nat, Record>, id: nat, t: Target) {
    exists k :: k in records && HoldsRow(records[k], t, id)
  }

  predicate Healthy(rows: map<nat, TraceRow>, records: map<nat, Record>, id: nat, t: Target) {
    id in rows && t !in rows[id].sent && !Held(records, id, t)
  }

  // ---- what becomes of a row that was tried ----

  /** The row is marked, or gone because it was marked for every target. */
  predicate Delivered(rows: map<nat, TraceRow>, id: nat, t: Target) {
    id in rows ==> t in rows[id].sent
  }

  /** The record keeps the row for an operator, or did until one settled it. */
  predicate KeepsRow(r: Record, id: nat, t: Target, rejected: bool, alone: bool) {
    r.target == t && (r.state.Resolved? || (r.state == Blocked(rejected) && id in r.ids && (alone ==> r.ids == {id})))
  }

  /** A record that was not there before keeps the row. */
  ghost predicate Kept(before: set<nat>, records: map<nat, Record>, id: nat, t: Target, rejected: bool, alone: bool) {
    exists k :: k in records && k !in before && KeepsRow(records[k], id, t, rejected, alone)
  }

  /**
   * A row that was written is done; one that may be tried again is free; any other is kept for an
   * operator, and one that is too large or cannot be sent is kept alone.
   */
  ghost predicate Fate(
    before: set<nat>, rows: map<nat, TraceRow>, records: map<nat, Record>, written: multiset<Pair>,
    id: nat, t: Target, said: Said)
  {
    match said
    case CannotSend => Kept(before, records, id, t, true, true)
    case Heard(answer) =>
      match answer
      case Written => Pair(id, t) in written && Delivered(rows, id, t)
      case NotWrittenRetry => Healthy(rows, records, id, t)
      case NotWrittenTooLarge => Kept(before, records, id, t, true, true)
      case NotWritten => Kept(before, records, id, t, true, false)
      case Unclear => Kept(before, records, id, t, false, false)
      case NoAnswer => false
  }

  ghost predicate Fates(
    before: set<nat>, rows: map<nat, TraceRow>, records: map<nat, Record>, written: multiset<Pair>,
    t: Target, said: map<nat, Said>)
  {
    forall id {:trigger Fate(before, rows, records, written, id, t, said[id])} ::
      id in said ==> Fate(before, rows, records, written, id, t, said[id])
  }

  predicate IsRetry(said: map<nat, Said>, id: nat) {
    id in said && said[id] == Heard(NotWrittenRetry)
  }

  /** No row needs an operator: each was written or may be tried again. */
  ghost predicate NoneKept(said: map<nat, Said>) {
    forall id :: id in said ==> said[id] == Heard(Written) || said[id] == Heard(NotWrittenRetry)
  }

  ghost predicate AllWritten(said: map<nat, Said>) {
    forall id :: id in said ==> said[id] == Heard(Written)
  }

  /** How a batch went, by what was heard of its rows. */
  ghost function ResultOf(said: map<nat, Said>): SendResult {
    if exists id :: IsRetry(said, id) then Retryable else if AllWritten(said) then Confirmed else BlockedRows
  }

  function Alike(ids: set<nat>, said: Said): map<nat, Said> {
    map id | id in ids :: said
  }

  /** Rows only go. */
  predicate Fewer(rows0: map<nat, TraceRow>, rows: map<nat, TraceRow>) {
    forall id :: id in rows ==> id in rows0 && rows[id] == rows0[id]
  }

  /** Rows only gain marks or go. */
  ghost predicate RowsMoved(rows0: map<nat, TraceRow>, origin0: map<nat, Origin>, rows: map<nat, TraceRow>) {
    forall id :: id in rows && id in origin0 ==> id in rows0 && rows0[id].sent <= rows[id].sent
  }

  /** Rows only gain marks or go, and records stay but for blocked ones that an operator settles. */
  ghost predicate MovedOn(
    rows0: map<nat, TraceRow>, records0: map<nat, Record>, origin0: map<nat, Origin>, written0: multiset<Pair>,
    rows: map<nat, TraceRow>, records: map<nat, Record>, written: multiset<Pair>)
  {
    && RowsMoved(rows0, origin0, rows)
    && (forall k :: k in records0 ==>
          && k in records && records[k].target == records0[k].target
          && (records[k] == records0[k] || (records0[k].state.Blocked? && records[k].state.Resolved?)))
    && written0 <= written
  }

  lemma MovedOnTwice(
    rows0: map<nat, TraceRow>, records0: map<nat, Record>, origin0: map<nat, Origin>, written0: multiset<Pair>,
    rows1: map<nat, TraceRow>, records1: map<nat, Record>, origin1: map<nat, Origin>, written1: multiset<Pair>,
    rows: map<nat, TraceRow>, records: map<nat, Record>, written: multiset<Pair>)
    requires MovedOn(rows0, records0, origin0, written0, rows1, records1, written1)
    requires MovedOn(rows1, records1, origin1, written1, rows, records, written) && origin0.Keys <= origin1.Keys
    ensures MovedOn(rows0, records0, origin0, written0, rows, records, written)
  {}

  /** It does not matter what was written before. */
  lemma MovedOnSince(
    rows0: map<nat, TraceRow>, records0: map<nat, Record>, origin0: map<nat, Origin>,
    written0: multiset<Pair>, written1: multiset<Pair>,
    rows: map<nat, TraceRow>, records: map<nat, Record>, written: multiset<Pair>)
    requires MovedOn(rows0, records0, origin0, written1, rows, records, written) && written0 <= written1
    ensures MovedOn(rows0, records0, origin0, written0, rows, records, written)
  {}

  /** A fate stays, as long as a free row is left free. */
  lemma FateStays(
    before: set<nat>, rows0: map<nat, TraceRow>, records0: map<nat, Record>, origin0: map<nat, Origin>, written0: multiset<Pair>,
    rows: map<nat, TraceRow>, records: map<nat, Record>, written: multiset<Pair>, id: nat, t: Target, said: Said)
    requires Fate(before, rows0, records0, written0, id, t, said) && id in origin0
    requires MovedOn(rows0, records0, origin0, written0, rows, records, written)
    requires said == Heard(NotWrittenRetry) ==> Healthy(rows, records, id, t)
    ensures Fate(before, rows, records, written, id, t, said)
  {
    var rejected := said != Heard(Unclear);
    var alone := said == CannotSend || said == Heard(NotWrittenTooLarge);
    if said != Heard(Written) && said != Heard(NotWrittenRetry) {
      var k :| k in records0 && k !in before && KeepsRow(records0[k], id, t, rejected, alone);
      assert k in records && KeepsRow(records[k], id, t, rejected, alone);
    }
  }

  lemma FatesStay(
    before: set<nat>, rows0: map<nat, TraceRow>, records0: map<nat, Record>, origin0: map<nat, Origin>, written0: multiset<Pair>,
    rows: map<nat, TraceRow>, records: map<nat, Record>, written: multiset<Pair>, t: Target, said: map<nat, Said>)
    requires Fates(before, rows0, records0, written0, t, said) && said.Keys <= origin0.Keys
    requires MovedOn(rows0, records0, origin0, written0, rows, records, written)
    requires forall id :: id in said && Healthy(rows0, records0, id, t) ==> Healthy(rows, records, id, t)
    ensures Fates(before, rows, records, written, t, said)
  {
    forall id | id in said ensures Fate(before, rows, records, written, id, t, said[id]) {
      FateStays(before, rows0, records0, origin0, written0, rows, records, written, id, t, said[id]);
    }
  }

  /** What is new since later is new since earlier. */
  lemma FatesEarlier(
    earlier: set<nat>, later: set<nat>, rows: map<nat, TraceRow>, records: map<nat, Record>, written: multiset<Pair>,
    t: Target, said: map<nat, Said>)
    requires Fates(later, rows, records, written, t, said) && earlier <= later
    ensures Fates(earlier, rows, records, written, t, said)
  {
    forall id | id in said ensures Fate(earlier, rows, records, written, id, t, said[id]) {
      assert Fate(later, rows, records, written, id, t, said[id]);
    }
  }

  lemma HalvesResult(a: map<nat, Said>, b: map<nat, Said>)
    requires a.Keys !! b.Keys
    ensures NoneKept(a + b) ==> NoneKept(a) && NoneKept(b)
    ensures ResultOf(a + b) ==
      if ResultOf(a).Retryable? || ResultOf(b).Retryable? then Retryable
      else if ResultOf(a).Confirmed? && ResultOf(b).Confirmed? then Confirmed else BlockedRows
  {
    var all := a + b;
    forall id | id in a ensures all[id] == a[id] {}
    forall id | id in b ensures all[id] == b[id] {}
    if id :| IsRetry(a, id) {
      assert IsRetry(all, id);
    }
    if id :| IsRetry(b, id) {
      assert IsRetry(all, id);
    }
    if id :| IsRetry(all, id) {
      assert IsRetry(a, id) || IsRetry(b, id);
    }
    if NoneKept(all) {
      forall id | id in a ensures a[id] == Heard(Written) || a[id] == Heard(NotWrittenRetry) {
        assert id in all;
      }
      forall id | id in b ensures b[id] == Heard(Written) || b[id] == Heard(NotWrittenRetry) {
        assert id in all;
      }
    }
    if AllWritten(all) {
      forall id | id in a ensures a[id] == Heard(Written) {
        assert id in all;
      }
      forall id | id in b ensures b[id] == Heard(Written) {
        assert id in all;
      }
    }
  }

  function Both(left: SendResult, right: SendResult): SendResult {
    if left.Retryable? || right.Retryable? then Retryable
    else if left.Confirmed? && right.Confirmed? then Confirmed else BlockedRows
  }

  /** Each row has its fate, the result sums them up, and nothing else was kept. */
  ghost predicate SentOn(
    before: set<nat>, rows: map<nat, TraceRow>, records: map<nat, Record>, written: multiset<Pair>,
    t: Target, result: SendResult, said: map<nat, Said>)
  {
    && result == ResultOf(said) && Fates(before, rows, records, written, t, said)
    && (NoneKept(said) ==> records.Keys <= before)
  }

  /** Two batches sent one after the other are sent together. */
  lemma SentTogether(
    rows0: map<nat, TraceRow>, records0: map<nat, Record>, origin0: map<nat, Origin>, written0: multiset<Pair>,
    rows1: map<nat, TraceRow>, records1: map<nat, Record>, origin1: map<nat, Origin>, written1: multiset<Pair>,
    rows: map<nat, TraceRow>, records: map<nat, Record>, written: multiset<Pair>,
    t: Target, left: SendResult, right: SendResult, first: map<nat, Said>, second: map<nat, Said>)
    requires MovedOn(rows0, records0, origin0, written0, rows1, records1, written1) && origin0.Keys <= origin1.Keys
    requires MovedOn(rows1, records1, origin1, written1, rows, records, written)
    requires SentOn(records0.Keys, rows1, records1, written1, t, left, first)
    requires SentOn(records1.Keys, rows, records, written, t, right, second)
    requires first.Keys !! second.Keys && first.Keys <= origin1.Keys
    requires forall id :: id in first && Healthy(rows1, records1, id, t) ==> Healthy(rows, records, id, t)
    ensures MovedOn(rows0, records0, origin0, written0, rows, records, written)
    ensures SentOn(records0.Keys, rows, records, written, t, Both(left, right), first + second)
  {
    MovedOnTwice(rows0, records0, origin0, written0, rows1, records1, origin1, written1, rows, records, written);
    FatesStay(records0.Keys, rows1, records1, origin1, written1, rows, records, written, t, first);
    FatesEarlier(records0.Keys, records1.Keys, rows, records, written, t, second);
    HalvesResult(first, second);
    forall id | id in first + second ensures Fate(records0.Keys, rows, records, written, id, t, (first + second)[id]) {
      if id in second {
        assert Fate(records0.Keys, rows, records, written, id, t, second[id]);
      } else {
        assert Fate(records0.Keys, rows, records, written, id, t, first[id]);
      }
    }
  }

  lemma AlikeResult(ids: set<nat>, answer: Answer)
    requires ids != {}
    ensures ResultOf(Alike(ids, Heard(answer))) ==
      if answer.Written? then Confirmed else if answer.NotWrittenRetry? then Retryable else BlockedRows
  {
    var said := Alike(ids, Heard(answer));
    var id :| id in ids;
    assert id in said && said[id] == Heard(answer);
    assert answer.NotWrittenRetry? ==> IsRetry(said, id);
  }

  /** The tables once an attempt is settled by its answer. */
  ghost predicate SettledBy(
    k: nat, ids: set<nat>, target: Target, answer: Answer, halve: bool,
    rows0: map<nat, TraceRow>, records0: map<nat, Record>, rows: map<nat, TraceRow>, records: map<nat, Record>)
    requires k in records0
  {
    && records == (if answer.Written? || answer.NotWrittenRetry? || halve then records0 - {k}
                   else records0[k := records0[k].(state := Blocked(!answer.Unclear?))])
    && rows == (if answer.Written? then Marked(rows0, ids, target) else rows0)
    && (answer.NotWrittenRetry? || halve ==> forall id :: id in ids ==> Healthy(rows, records, id, target))
  }

  lemma SettledFates(
    before: set<nat>, items: seq<Item>, target: Target, k: nat, answer: Answer,
    rows0: map<nat, TraceRow>, records0: map<nat, Record>,
    rows: map<nat, TraceRow>, records: map<nat, Record>, written: multiset<Pair>)
    requires k !in before && k in records0 && records0[k] == Record(target, ItemIds(items), InFlight)
    requires records0.Keys == before + {k} && (answer.NotWrittenTooLarge? ==> |items| == 1) && !answer.NoAnswer?
    requires SettledBy(k, ItemIds(items), target, answer, false, rows0, records0, rows, records)
    requires answer.Written? ==> forall id :: id in ItemIds(items) ==> Pair(id, target) in written
    ensures Fates(before, rows, records, written, target, Alike(ItemIds(items), Heard(answer)))
  {
    if answer.NotWrittenTooLarge? {
      assert ItemIds(items) == {items[0].id};
    }
    forall id | id in ItemIds(items) ensures Fate(before, rows, records, written, id, target, Heard(answer)) {
      if !answer.Written? && !answer.NotWrittenRetry? {
        assert KeepsRow(records[k], id, target, !answer.Unclear?, answer.NotWrittenTooLarge?);
      }
    }
  }

  /** What an attempt's answer makes of its rows. */
  lemma SettledOnce(
    before: set<nat>, items: seq<Item>, target: Target, k: nat, answer: Answer,
    rows0: map<nat, TraceRow>, records0: map<nat, Record>, origin: map<nat, Origin>,
    rows: map<nat, TraceRow>, records: map<nat, Record>, written: multiset<Pair>)
    requires k !in before && k in records0 && records0[k] == Record(target, ItemIds(items), InFlight)
    requires records0.Keys == before + {k} && items != [] && !answer.NoAnswer?
    requires SettledBy(k, ItemIds(items), target, answer, answer.NotWrittenTooLarge? && |items| > 1, rows0, records0, rows, records)
    requires answer.Written? ==> forall id :: id in ItemIds(items) ==> Pair(id, target) in written
    ensures RowsMoved(rows0, origin, rows) && OldRecordsStay(before, records0, records)
    ensures
      if answer.NotWrittenTooLarge? && |items| > 1 then records.Keys == before
      else
        SentOn(before, rows, records, written, target,
          if answer.Written? then Confirmed else if answer.NotWrittenRetry? then Retryable else BlockedRows,
          Alike(ItemIds(items), Heard(answer)))
  {
    assert items[0].id in ItemIds(items);
    if !(answer.NotWrittenTooLarge? && |items| > 1) {
      SettledFates(before, items, target, k, answer, rows0, records0, rows, records, written);
      AlikeResult(ItemIds(items), answer);
      assert items[0].id in Alike(ItemIds(items), Heard(answer));
    }
  }

  /** The records that were there before stay as they are, and nothing else is in flight. */
  ghost predicate OldRecordsStay(before: set<nat>, records0: map<nat, Record>, records: map<nat, Record>)
    requires before <= records0.Keys
  {
    && (forall j :: j in before ==> j in records && records[j] == records0[j])
    && (forall j :: j in records && records[j].state.InFlight? ==> j in before)
  }

  lemma SettledMovesOn(
    rows0: map<nat, TraceRow>, records0: map<nat, Record>, origin0: map<nat, Origin>, written0: multiset<Pair>,
    rows1: map<nat, TraceRow>, records1: map<nat, Record>, origin1: map<nat, Origin>,
    rows: map<nat, TraceRow>, records: map<nat, Record>, written: multiset<Pair>)
    requires MovedOn(rows0, records0, origin0, written0, rows1, records1, written) && origin0.Keys <= origin1.Keys
    requires RowsMoved(rows1, origin1, rows) && OldRecordsStay(records0.Keys, records1, records)
    ensures MovedOn(rows0, records0, origin0, written0, rows, records, written)
  {}

  // ---- which rows a flush takes ----

  /**
   * A target had its turn: every row that was free for it was tried, unless one is to be tried again or a
   * full batch of older ones was.
   */
  ghost predicate Turn(
    rows0: map<nat, TraceRow>, records0: map<nat, Record>,
    rows: map<nat, TraceRow>, records: map<nat, Record>, written: multiset<Pair>, t: Target, said: map<nat, Said>)
  {
    && Fates(records0.Keys, rows, records, written, t, said)
    && (forall id {:trigger Healthy(rows0, records0, id, t)} :: Healthy(rows0, records0, id, t) && id !in said ==>
          || ResultOf(said).Retryable?
          || (|said.Keys| == BATCH_SIZE && forall other :: other in said ==> other < id))
  }

  /** The first targets had their turns, and the others' rows are as free as they were. */
  ghost predicate TurnsDone(
    rows0: map<nat, TraceRow>, records0: map<nat, Record>, origin0: map<nat, Origin>, written0: multiset<Pair>,
    rows: map<nat, TraceRow>, records: map<nat, Record>, origin: map<nat, Origin>, written: multiset<Pair>,
    targets: seq<Target>, said: seq<map<nat, Said>>)
  {
    && |said| <= |targets| && MovedOn(rows0, records0, origin0, written0, rows, records, written) && origin0.Keys <= origin.Keys
    && (forall i {:trigger said[i]} :: 0 <= i < |said| ==>
          Turn(rows0, records0, rows, records, written, targets[i], said[i]) && said[i].Keys <= origin.Keys)
    && ((forall i {:trigger said[i]} :: 0 <= i < |said| ==> NoneKept(said[i])) ==> records.Keys <= records0.Keys)
    && (forall i {:trigger targets[i]} :: |said| <= i < |targets| ==> StillFree(rows0, records0, rows, records, targets[i]))
  }

  ghost predicate StillFree(
    rows0: map<nat, TraceRow>, records0: map<nat, Record>, rows: map<nat, TraceRow>, records: map<nat, Record>, t: Target)
  {
    forall id {:trigger Healthy(rows, records, id, t)} :: Healthy(rows0, records0, id, t) ==> Healthy(rows, records, id, t)
  }

  /** A turn of an earlier target stays done. */
  lemma TurnStays(
    rows0: map<nat, TraceRow>, records0: map<nat, Record>,
    rows1: map<nat, TraceRow>, records1: map<nat, Record>, origin1: map<nat, Origin>, written1: multiset<Pair>,
    rows: map<nat, TraceRow>, records: map<nat, Record>, written: multiset<Pair>, t: Target, said: map<nat, Said>)
    requires Turn(rows0, records0, rows1, records1, written1, t, said) && said.Keys <= origin1.Keys
    requires MovedOn(rows1, records1, origin1, written1, rows, records, written)
    requires StillFree(rows1, records1, rows, records, t)
    ensures Turn(rows0, records0, rows, records, written, t, said)
  {
    FatesStay(records0.Keys, rows1, records1, origin1, written1, rows, records, written, t, said);
  }

  /** The turn that was just taken. */
  lemma TurnOf(
    rows0: map<nat, TraceRow>, records0: map<nat, Record>, rows1: map<nat, TraceRow>, records1: map<nat, Record>,
    rows: map<nat, TraceRow>, records: map<nat, Record>, written: multiset<Pair>, t: Target, said: map<nat, Said>)
    requires StillFree(rows0, records0, rows1, records1, t) && records0.Keys <= records1.Keys
    requires Served(rows1, records1, t, said) && Fates(records1.Keys, rows, records, written, t, said)
    ensures Turn(rows0, records0, rows, records, written, t, said)
  {
    FatesEarlier(records0.Keys, records1.Keys, rows, records, written, t, said);
    var chosen: set<nat> :|
      Oldest(rows1, records1, t, chosen) && said.Keys <= chosen && (said.Keys == chosen || ResultOf(said).Retryable?);
    forall id | Healthy(rows0, records0, id, t) && id !in said && !ResultOf(said).Retryable?
      ensures |said.Keys| == BATCH_SIZE && forall other :: other in said ==> other < id
    {
      assert Healthy(rows1, records1, id, t);
    }
  }

  lemma StillFreeTwice(
    rows0: map<nat, TraceRow>, records0: map<nat, Record>, rows1: map<nat, TraceRow>, records1: map<nat, Record>,
    rows: map<nat, TraceRow>, records: map<nat, Record>, t: Target)
    requires StillFree(rows0, records0, rows1, records1, t) && StillFree(rows1, records1, rows, records, t)
    ensures StillFree(rows0, records0, rows, records, t)
  {}

  lemma OtherTargetsStillFree(
    rows0: map<nat, TraceRow>, records0: map<nat, Record>, rows: map<nat, TraceRow>, records: map<nat, Record>,
    targetSet: set<Target>, target: Target, ids: set<nat>, t: Target)
    requires LeftFree(rows0, records0, rows, records, targetSet, target, ids) && t in targetSet && t != target
    ensures StillFree(rows0, records0, rows, records, t)
  {}

  /** One more target has had its turn. */
  lemma TurnTaken(
    rows0: map<nat, TraceRow>, records0: map<nat, Record>, origin0: map<nat, Origin>, written0: multiset<Pair>,
    rows1: map<nat, TraceRow>, records1: map<nat, Record>, origin1: map<nat, Origin>, written1: multiset<Pair>,
    rows: map<nat, TraceRow>, records: map<nat, Record>, origin: map<nat, Origin>, written: multiset<Pair>,
    targets: seq<Target>, targetSet: set<Target>, said: seq<map<nat, Said>>, heard: map<nat, Said>)
    requires |said| < |targets| && AllDifferent(targets)
    requires targetSet == set t | t in targets
    requires TurnsDone(rows0, records0, origin0, written0, rows1, records1, origin1, written1, targets, said)
    requires MovedOn(rows1, records1, origin1, written1, rows, records, written) && origin1.Keys <= origin.Keys
    requires SentOn(records1.Keys, rows, records, written, targets[|said|], ResultOf(heard), heard) && heard.Keys <= origin1.Keys
    requires LeftFree(rows1, records1, rows, records, targetSet, targets[|said|], heard.Keys)
    requires Served(rows1, records1, targets[|said|], heard)
    ensures TurnsDone(rows0, records0, origin0, written0, rows, records, origin, written, targets, said + [heard])
  {
    var n, all := |said|, said + [heard];
    MovedOnTwice(rows0, records0, origin0, written0, rows1, records1, origin1, written1, rows, records, written);
    assert StillFree(rows0, records0, rows1, records1, targets[n]);
    TurnOf(rows0, records0, rows1, records1, rows, records, written, targets[n], heard);
    forall i | 0 <= i < |targets| && i != n ensures StillFree(rows1, records1, rows, records, targets[i]) {
      assert targets[i] != targets[n];
      OtherTargetsStillFree(rows1, records1, rows, records, targetSet, targets[n], heard.Keys, targets[i]);
    }
    forall i | 0 <= i < |all|
      ensures Turn(rows0, records0, rows, records, written, targets[i], all[i]) && all[i].Keys <= origin.Keys
    {
      if i < n {
        assert all[i] == said[i];
        TurnStays(rows0, records0, rows1, records1, origin1, written1, rows, records, written, targets[i], said[i]);
      }
    }
    forall i | |all| <= i < |targets| ensures StillFree(rows0, records0, rows, records, targets[i]) {
      StillFreeTwice(rows0, records0, rows1, records1, rows, records, targets[i]);
    }
    if forall i :: 0 <= i < |all| ==> NoneKept(all[i]) {
      assert NoneKept(all[n]);
      forall i | 0 <= i < |said| ensures NoneKept(said[i]) {
        assert all[i] == said[i];
      }
    }
  }

  /** Deleting rows that every target has changes no fate. */
  lemma DoneAfterDeleting(
    rows0: map<nat, TraceRow>, records0: map<nat, Record>, origin0: map<nat, Origin>, written0: multiset<Pair>,
    rows1: map<nat, TraceRow>, rows: map<nat, TraceRow>, records: map<nat, Record>,
    origin: map<nat, Origin>, written: multiset<Pair>, targets: seq<Target>, targetSet: set<Target>, said: seq<map<nat, Said>>)
    requires TurnsDone(rows0, records0, origin0, written0, rows1, records, origin, written, targets, said)
    requires |said| == |targets| && targetSet == (set t | t in targets) && Fewer(rows1, rows)
    requires forall id, t {:trigger Healthy(rows, records, id, t)} ::
      t in targetSet && Healthy(rows1, records, id, t) ==> Healthy(rows, records, id, t)
    ensures TurnsDone(rows0, records0, origin0, written0, rows, records, origin, written, targets, said)
  {
    assert MovedOn(rows1, records, origin, written, rows, records, written);
    MovedOnTwice(rows0, records0, origin0, written0, rows1, records, origin, written, rows, records, written);
    forall i | 0 <= i < |said| ensures Turn(rows0, records0, rows, records, written, targets[i], said[i]) {
      assert targets[i] in targetSet && said[i].Keys <= origin.Keys;
      TurnStays(rows0, records0, rows1, records, origin, written, rows, records, written, targets[i], said[i]);
    }
  }

  /** What was free is still free, except for the given rows of a target. */
  ghost predicate LeftFree(
    rows0: map<nat, TraceRow>, records0: map<nat, Record>, rows: map<nat, TraceRow>, records: map<nat, Record>,
    targets: set<Target>, target: Target, ids: set<nat>)
  {
    forall id, t {:trigger Healthy(rows, records, id, t)} ::
      t in targets && Healthy(rows0, records0, id, t) && !(t == target && id in ids) ==> Healthy(rows, records, id, t)
  }

  lemma LeftFreeTwice(
    rows0: map<nat, TraceRow>, records0: map<nat, Record>, rows1: map<nat, TraceRow>, records1: map<nat, Record>,
    rows: map<nat, TraceRow>, records: map<nat, Record>, targets: set<Target>, target: Target, a: set<nat>, b: set<nat>)
    requires LeftFree(rows0, records0, rows1, records1, targets, target, a)
    requires LeftFree(rows1, records1, rows, records, targets, target, b)
    ensures LeftFree(rows0, records0, rows, records, targets, target, a + b)
  {}

  lemma RestStaysFree(
    rows0: map<nat, TraceRow>, records0: map<nat, Record>, rows: map<nat, TraceRow>, records: map<nat, Record>,
    targets: set<Target>, target: Target, ids: set<nat>, rest: set<nat>)
    requires LeftFree(rows0, records0, rows, records, targets, target, ids) && target in targets
    requires AllFree(rows0, records0, target, rest) && rest !! ids
    ensures AllFree(rows, records, target, rest)
  {}

  ghost predicate AllFree(rows: map<nat, TraceRow>, records: map<nat, Record>, t: Target, ids: set<nat>) {
    forall id :: id in ids ==> Healthy(rows, records, id, t)
  }

  /** A full batch of the oldest rows that are free for a target, or all of them. */
  ghost predicate Oldest(rows: map<nat, TraceRow>, records: map<nat, Record>, t: Target, chosen: set<nat>) {
    && AllFree(rows, records, t, chosen)
    && (forall id :: Healthy(rows, records, id, t) && id !in chosen ==>
          |chosen| == BATCH_SIZE && forall other :: other in chosen ==> other < id)
  }

  /** Of the rows that were chosen each was tried, or some row is to be tried again and the rest waits with it. */
  ghost predicate Served(rows: map<nat, TraceRow>, records: map<nat, Record>, t: Target, said: map<nat, Said>) {
    exists chosen: set<nat> ::
      Oldest(rows, records, t, chosen) && said.Keys <= chosen && (said.Keys == chosen || ResultOf(said).Retryable?)
  }

  lemma IsServed(rows: map<nat, TraceRow>, records: map<nat, Record>, t: Target, chosen: set<nat>, said: map<nat, Said>)
    requires Oldest(rows, records, t, chosen) && said.Keys <= chosen && (said.Keys == chosen || ResultOf(said).Retryable?)
    ensures Served(rows, records, t, said)
  {}

  function Stored(rows: map<nat, TraceRow>, chunks: map<nat, seq<Units>>, id: nat): Units
    requires id in rows
  {
    if rows[id].inline != [] then rows[id].inline
    else if id in chunks then Join(chunks[id]) else []
  }

  /** Some row was queued for a ledger key. */
  ghost predicate IsQueued(origin: map<nat, Origin>, key: string) {
    exists id :: id in origin && origin[id].key == key
  }

  /** The tables of identity and payload: every queued trace is stored whole until it is deleted. */
  ghost predicate Stores(
    rows: map<nat, TraceRow>, chunks: map<nat, seq<Units>>, origin: map<nat, Origin>, keys: set<string>, nextRow: nat)
  {
    && (forall id :: id in rows ==> id in origin && Stored(rows, chunks, id) == origin[id].data && origin[id].data != [])
    && (forall id :: id in origin ==> id < nextRow && origin[id].key in keys)
    && (forall i, j :: i in origin && j in origin && origin[i].key == origin[j].key ==> i == j)
    && (forall key {:trigger IsQueued(origin, key)} :: key in keys ==> IsQueued(origin, key))
    && (forall id :: id in chunks ==> id < nextRow)
  }

  /** Active records hold unsent rows, and no row twice for one target. */
  ghost predicate Holds(rows: map<nat, TraceRow>, records: map<nat, Record>, targets: set<Target>, nextRecord: nat) {
    && (forall k :: k in records ==> k < nextRecord && records[k].target in targets)
    && (forall k, t, id {:trigger HoldsRow(records[k], t, id)} :: k in records && HoldsRow(records[k], t, id) ==>
          id in rows && t !in rows[id].sent)
    && (forall k, j, t, id {:trigger HoldsRow(records[k], t, id), HoldsRow(records[j], t, id)} :: k in records && j in records ==>
          HoldsRow(records[k], t, id) && HoldsRow(records[j], t, id) ==> k == j)
  }

  /** How often each row was written to each target, as its marks and records tell it. */
  ghost predicate Counts(
    rows: map<nat, TraceRow>, records: map<nat, Record>, origin: map<nat, Origin>, targets: set<Target>,
    written: multiset<Pair>)
  {
    && (forall p :: p in written ==> written[p] == 1 && p.id in origin)
    && (forall id, t {:trigger Pair(id, t)} :: id in rows && t in rows[id].sent ==> Pair(id, t) in written)
    && (forall id, t {:trigger Pair(id, t)} :: Healthy(rows, records, id, t) ==> Pair(id, t) !in written)
    && (forall id, t {:trigger Pair(id, t)} :: id in origin && id !in rows && t in targets ==> Pair(id, t) in written)
    && (forall k, id :: k in records && records[k].state == Blocked(true) && id in records[k].ids ==>
          Pair(id, records[k].target) !in written)
  }

  class TraceBatcher {
    const targets: seq<Target>

    var rows: map<nat, TraceRow>
    var chunks: map<nat, seq<Units>>
    var nextRow: nat
    var ledger: map<string, string>
    var processed: set<string>
    var repairs: set<Repair>
    var records: map<nat, Record>
    var nextRecord: nat
    var flushing: bool
    /** Every row ever queued, and every pair of a row and a target its text was written to. */
    ghost var origin: map<nat, Origin>
    ghost var written: multiset<Pair>

    ghost predicate Valid()
      reads this
    {
      && AllDifferent(targets)
      && Stores(rows, chunks, origin, ledger.Keys, nextRow)
      && Holds(rows, records, TargetSet(), nextRecord)
      && Counts(rows, records, origin, TargetSet(), written)
    }

    function TargetSet(): set<Target> {
      set t | t in targets
    }

    constructor (targets: seq<Target>)
      requires targets != [] && AllDifferent(targets)
      ensures Valid() && rows == map[] && !flushing && this.targets == targets
    {
      this.targets := targets;
      rows, chunks, nextRow, ledger, processed := map[], map[], 0, map[], {};
      repairs, records, nextRecord, flushing := {}, map[], 0, false;
      origin, written := map[], multiset{};
    }

    /** No text is written twice to one target. */
    lemma WrittenAtMostOnce(p: Pair)
      requires Valid()
      ensures written[p] <= 1
    {}

    /**
     * Nothing is lost and nothing is queued twice: each ledger key belongs to one row, which still
     * holds its whole text or was written once to every target.
     */
    lemma NothingLost(key: string) returns (id: nat)
      requires Valid() && key in ledger
      ensures id in origin && origin[id].key == key
      ensures forall other :: other in origin && origin[other].key == key ==> other == id
      ensures id in rows ==> Stored(rows, chunks, id) == origin[id].data
      ensures id !in rows ==> forall t :: t in targets ==> written[Pair(id, t)] == 1
    {
      assert IsQueued(origin, key);
      id :| id in origin && origin[id].key == key;
      forall t | t in targets && id !in rows ensures written[Pair(id, t)] == 1 {
        assert t in TargetSet();
      }
    }

    /**
     * What any other event does to a flush in progress: healthy rows stay healthy, no record comes or
     * goes, in-flight ones stay as they are, and nothing is written.
     */
    twostate predicate Undisturbed()
      reads this
    {
      && (forall id :: id in old(origin) ==> id in origin && origin[id] == old(origin)[id])
      && (forall id, t {:trigger Healthy(rows, records, id, t)} ::
          t in TargetSet() && Healthy(old(rows), old(records), id, t) ==> Healthy(rows, records, id, t))
      && (forall k :: k in old(records) && old(records)[k].state.InFlight? ==> k in records && records[k] == old(records)[k])
      && (forall k :: k in records && records[k].state.InFlight? ==> k in old(records) && old(records)[k] == records[k])
      && written == old(written) && flushing == old(flushing) && nextRecord >= old(nextRecord)
      && records.Keys == old(records).Keys
      && MovedOn(old(rows), old(records), old(origin), old(written), rows, records, written)
    }

    /** A pause: other messages may be queued and operators may settle blocked records. */
    method Pause()
      requires Valid()
      modifies this
      ensures Valid() && Undisturbed()
    {}

    // ---- recovery records ----

    /** Announces an attempt, or preserves rows that cannot be sent, under a new record. */
    method InsertRecord(target: Target, ids: set<nat>, state: RecordState) returns (k: nat)
      requires Valid() && Active(Record(target, ids, state)) && target in TargetSet()
      requires forall id :: id in ids ==> Healthy(rows, records, id, target)
      modifies `records, `nextRecord
      ensures Valid() && k == old(nextRecord) && k !in old(records)
      ensures records == old(records)[k := Record(target, ids, state)] && nextRecord == k + 1
      ensures forall id, t {:trigger Healthy(rows, records, id, t)} ::
        Healthy(rows, old(records), id, t) && !(t == target && id in ids) ==> Healthy(rows, records, id, t)
    {
      k := nextRecord;
      HeldAfterInsert(records, k, Record(target, ids, state));
      InsertKeepsHolds(rows, records, TargetSet(), k, Record(target, ids, state));
      InsertKeepsCounts(rows, records, k, Record(target, ids, state), origin, TargetSet(), written);
      records := records[k := Record(target, ids, state)];
      nextRecord := nextRecord + 1;
    }

    /** Ends a record whose rows were not written: they are free again. */
    method ReleaseUnwritten(k: nat, after: map<nat, Record>)
      requires Valid() && Released(records, k, after) && Active(records[k])
      requires forall id :: id in records[k].ids ==> Pair(id, records[k].target) !in written
      modifies `records
      ensures Valid() && records == after
      ensures forall id :: id in old(records)[k].ids ==> Healthy(rows, records, id, old(records)[k].target)
      ensures forall id, t {:trigger Healthy(rows, records, id, t)} ::
        Healthy(rows, old(records), id, t) ==> Healthy(rows, records, id, t)
    {
      ReleaseKeepsHolds(rows, records, TargetSet(), nextRecord, k, after);
      ReleaseKeepsCounts(rows, records, origin, TargetSet(), written, nextRecord, k, after);
      HeldAfterRelease(rows, records, TargetSet(), nextRecord, k, after);
      forall id | id in records[k].ids ensures Healthy(rows, after, id, records[k].target) {
        assert HoldsRow(records[k], records[k].target, id);
      }
      records := after;
    }

    /** Keeps the rows of a refused or unclear attempt for an operator. */
    method BlockInsert(k: nat, rejected: bool)
      requires Valid() && k in records && records[k].state.InFlight?
      requires rejected ==> forall id :: id in records[k].ids ==> Pair(id, records[k].target) !in written
      modifies `records
      ensures Valid() && records == old(records)[k := old(records)[k].(state := Blocked(rejected))]
    {
      RestateKeeps(rows, records, origin, TargetSet(), written, nextRecord, k, Blocked(rejected));
      records := records[k := records[k].(state := Blocked(rejected))];
    }

    /** Installs new rows and records that keep the invariant. */
    method Install(rows1: map<nat, TraceRow>, records1: map<nat, Record>)
      requires AllDifferent(targets)
      requires Stores(rows1, chunks, origin, ledger.Keys, nextRow) && Holds(rows1, records1, TargetSet(), nextRecord)
      requires Counts(rows1, records1, origin, TargetSet(), written)
      modifies `rows, `records
      ensures Valid() && rows == rows1 && records == records1
    {
      rows, records := rows1, records1;
    }

    /** Ends a record whose rows were written: they are marked sent. */
    method ReleaseWritten(k: nat, after: map<nat, Record>)
      requires Valid() && Released(records, k, after) && Active(records[k])
      requires forall id :: id in records[k].ids ==> Pair(id, records[k].target) in written
      modifies `rows, `records
      ensures Valid() && records == after
      ensures rows == Marked(old(rows), old(records)[k].ids, old(records)[k].target)
      ensures forall id, t {:trigger Healthy(rows, records, id, t)} ::
        Healthy(old(rows), old(records), id, t) ==> Healthy(rows, records, id, t)
    {
      ConfirmKeeps(rows, chunks, records, origin, ledger.Keys, TargetSet(), written, nextRow, nextRecord, k, after);
      OthersStayHealthy(rows, records, TargetSet(), nextRecord, k, after);
      var ids := Listed(records[k].ids);
      var marked := MarkSent(rows, ids, records[k].target);
      Install(marked, after);
    }

    /** Some rows of an announced attempt reach their target. */
    ghost method Land(k: nat, landed: set<nat>)
      requires Valid() && k in records && records[k].state.InFlight? && landed <= records[k].ids
      requires forall id :: id in records[k].ids ==> Pair(id, records[k].target) !in written
      modifies `written
      ensures Valid() && old(written) <= written
      ensures forall id :: Pair(id, records[k].target) in written <==>
        Pair(id, records[k].target) in old(written) || id in landed
    {
      written := written + PairsOf(landed, records[k].target);
      WriteKeepsCounts(rows, records, origin, TargetSet(), old(written), nextRecord, k, landed);
    }

    /**
     * The insert call itself. Only an answer that says so proves that nothing was written; without
     * one, any part of the rows may have been.
     */
    method TryInsert(k: nat) returns (answer: Answer)
      requires Valid() && k in records && records[k].state.InFlight?
      requires forall id :: id in records[k].ids ==> Pair(id, records[k].target) !in written
      modifies this
      ensures Valid() && flushing == old(flushing) && nextRecord >= old(nextRecord)
      ensures old(written) <= written
      ensures k in records && records[k] == old(records)[k] && records.Keys == old(records).Keys
      ensures MovedOn(old(rows), old(records), old(origin), old(written), rows, records, written) && old(origin).Keys <= origin.Keys
      ensures answer.Written? ==> forall id :: id in records[k].ids ==> Pair(id, records[k].target) in written
      ensures answer.NotWrittenRetry? || answer.NotWrittenTooLarge? || answer.NotWritten? ==>
        forall id :: id in records[k].ids ==> Pair(id, records[k].target) !in written
      ensures forall id, t {:trigger Healthy(rows, records, id, t)} ::
          t in TargetSet() && Healthy(old(rows), old(records), id, t) ==> Healthy(rows, records, id, t)
      ensures forall j :: j in records && records[j].state.InFlight? ==> j in old(records) && old(records)[j].state.InFlight?
    {
      ghost var rows0, records0, origin0, written0 := rows, records, origin, written;
      answer := Insert(k);
      ghost var written1 := written;
      Pause();
      MovedOnSince(rows0, records0, origin0, written0, written1, rows, records, written);
    }

    /** The target's part of the call: it answers as much as it knows of what it has written. */
    method Insert(k: nat) returns (answer: Answer)
      requires Valid() && k in records && records[k].state.InFlight?
      requires forall id :: id in records[k].ids ==> Pair(id, records[k].target) !in written
      modifies `written
      ensures Valid() && old(written) <= written
      ensures answer.Written? ==> forall id :: id in records[k].ids ==> Pair(id, records[k].target) in written
      ensures answer.NotWrittenRetry? || answer.NotWrittenTooLarge? || answer.NotWritten? ==>
        forall id :: id in records[k].ids ==> Pair(id, records[k].target) !in written
    {
      answer := *;
      ghost var landed: set<nat> := {};
      if answer.Written? {
        landed := records[k].ids;
      } else if answer.Unclear? || answer.NoAnswer? {
        landed := *;
        landed := landed * records[k].ids;
      }
      Land(k, landed);
    }

    method DeleteRows(gone: set<nat>)
      requires Valid() && targets != [] && forall id :: id in gone ==> id in rows && FullySent(rows[id])
      modifies `rows, `chunks
      ensures Valid() && rows == old(rows) - gone
    {
      DeleteKeeps(rows, chunks, records, origin, ledger.Keys, TargetSet(), written, nextRow, nextRecord, gone);
      chunks := chunks - gone;
      rows := rows - gone;
    }

    /** Deletes the given rows that every target has, with their chunks. */
    method DeleteFullySent(ids: seq<nat>)
      requires Valid() && targets != []
      modifies `rows, `chunks
      ensures Valid() && OthersStayFree({}, Clean) && Fewer(old(rows), rows)
      ensures forall id :: id in IdSet(ids) && id in rows ==> !FullySent(rows[id])
    {
      var i := 0;
      while i < |ids|
        invariant 0 <= i <= |ids| && Valid() && Fewer(old(rows), rows)
        invariant NoneFullySent(rows, ids[..i])
        invariant forall id :: id in old(rows) && id !in rows ==> FullySent(old(rows)[id])
      {
        var end := if |ids| < i + DELETE_CHUNK then |ids| else i + DELETE_CHUNK;
        var gone := set id | id in ids[i..end] && id in rows && FullySent(rows[id]);
        ChunkIsDeleted(rows, ids, i, end, gone);
        DeleteRows(gone);
        i := end;
      }
      assert ids[..|ids|] == ids;
      DeletingKeepsFree();
    }

    predicate NoneFullySent(rows: map<nat, TraceRow>, ids: seq<nat>) {
      forall id :: id in ids && id in rows ==> !FullySent(rows[id])
    }

    lemma ChunkIsDeleted(rows: map<nat, TraceRow>, ids: seq<nat>, i: nat, end: nat, gone: set<nat>)
      requires i <= end <= |ids| && NoneFullySent(rows, ids[..i])
      requires gone == set id | id in ids[i..end] && id in rows && FullySent(rows[id])
      ensures NoneFullySent(rows - gone, ids[..end])
    {
      assert ids[..end] == ids[..i] + ids[i..end];
    }

    twostate lemma DeletingKeepsFree()
      requires records == old(records) && Fewer(old(rows), rows)
      requires forall id :: id in old(rows) && id !in rows ==> FullySent(old(rows)[id])
      ensures OthersStayFree({}, Clean)
    {}

    /** Some row could be sent to some target. */
    predicate AnyHealthy()
      reads this
    {
      exists id, t :: id in rows && t in TargetSet() && Healthy(rows, records, id, t)
    }

    predicate FullySent(row: TraceRow) {
      forall t :: t in TargetSet() ==> t in row.sent
    }

    // ---- sending ----

    /** Different rows, all of them free to be sent to a target. */
    ghost predicate Sendable(items: seq<Item>, target: Target)
      reads this
    {
      DistinctIds(items) && forall id :: id in ItemIds(items) ==> Healthy(rows, records, id, target)
    }

    /** Every row that was free for a target still is, unless it is one of the given rows. */
    twostate predicate OthersStayFree(ids: set<nat>, target: Target)
      reads this
    {
      forall id, t {:trigger Healthy(rows, records, id, t)} ::
        t in TargetSet() && Healthy(old(rows), old(records), id, t) && !(t == target && id in ids) ==>
        Healthy(rows, records, id, t)
    }

    twostate predicate NoNewInFlight()
      reads this
    {
      forall k :: k in records && records[k].state.InFlight? ==> k in old(records) && old(records)[k].state.InFlight?
    }

    /** Rows, records and writes only moved on since. */
    twostate predicate Onwards()
      reads this
    {
      MovedOn(old(rows), old(records), old(origin), old(written), rows, records, written) && old(origin).Keys <= origin.Keys
    }

    /** Announces an attempt at free rows and makes it. */
    method Attempt(target: Target, ids: set<nat>) returns (k: nat, answer: Answer)
      requires Valid() && target in TargetSet()
      requires forall id :: id in ids ==> Healthy(rows, records, id, target)
      modifies this
      ensures Valid() && flushing == old(flushing) && Onwards()
      ensures OthersStayFree(ids, target)
      ensures k in records && records[k] == Record(target, ids, InFlight)
      ensures k !in old(records) && records.Keys == old(records).Keys + {k}
      ensures answer.Written? ==> forall id :: id in ids ==> Pair(id, target) in written
      ensures answer.NotWrittenRetry? || answer.NotWrittenTooLarge? || answer.NotWritten? ==>
        forall id :: id in ids ==> Pair(id, target) !in written
      ensures forall j :: j in records && records[j].state.InFlight? && j != k ==>
        j in old(records) && old(records)[j].state.InFlight?
    {
      ghost var rows0, records0, origin0, written0 := rows, records, origin, written;
      k := InsertRecord(target, ids, InFlight);
      ghost var records1 := records;
      answer := TryInsert(k);
      MovedOnTwice(rows0, records0, origin0, written0, rows0, records1, origin0, written0, rows, records, written);
    }

    /**
     * Settles an attempt by its answer. What was written is marked; what may be tried again, or is to be
     * halved, is free as if it had not been tried; anything else is kept for an operator.
     */
    method Settle(k: nat, answer: Answer, several: bool) returns (result: SendResult, halve: bool)
      requires Valid() && k in records && records[k].state.InFlight? && !answer.NoAnswer?
      requires answer.Written? ==> forall id :: id in records[k].ids ==> Pair(id, records[k].target) in written
      requires answer.NotWrittenRetry? || answer.NotWrittenTooLarge? || answer.NotWritten? ==>
        forall id :: id in records[k].ids ==> Pair(id, records[k].target) !in written
      modifies `rows, `records
      ensures Valid()
      ensures halve <==> answer.NotWrittenTooLarge? && several
      ensures result == if answer.Written? then Confirmed else if answer.NotWrittenRetry? then Retryable else BlockedRows
      ensures SettledBy(k, old(records)[k].ids, old(records)[k].target, answer, halve, old(rows), old(records), rows, records)
      ensures forall id, t {:trigger Healthy(rows, records, id, t)} ::
          t in TargetSet() && Healthy(old(rows), old(records), id, t) ==> Healthy(rows, records, id, t)
    {
      halve := answer.NotWrittenTooLarge? && several;
      if answer.Written? {
        ReleaseWritten(k, records - {k});
        result := Confirmed;
      } else if answer.NotWrittenRetry? || halve {
        ReleaseUnwritten(k, records - {k});
        result := if halve then BlockedRows else Retryable;
      } else {
        HeldAfterRestate(records, k, Blocked(!answer.Unclear?));
        BlockInsert(k, !answer.Unclear?);
        result := BlockedRows;
      }
    }

    /** One announced attempt: settled by its answer, or left in flight by a crash. */
    method SendOnce(target: Target, items: seq<Item>) returns (result: SendResult, halve: bool, ghost answer: Answer)
      requires Valid() && target in TargetSet() && Sendable(items, target) && items != []
      modifies this
      ensures Valid() && flushing == old(flushing) && old(written) <= written
      ensures OthersStayFree(ItemIds(items), target)
      ensures halve <==> answer.NotWrittenTooLarge? && |items| > 1
      ensures halve ==> Sendable(items, target) && records.Keys <= old(records).Keys
      ensures result.Crashed? <==> answer.NoAnswer?
      ensures !result.Crashed? ==> Onwards() && NoNewInFlight()
      ensures !result.Crashed? && !halve ==>
        SentOn(old(records).Keys, rows, records, written, target, result, Alike(ItemIds(items), Heard(answer)))
    {
      var k, heard := Attempt(target, ItemIds(items));
      answer := heard;
      if heard.NoAnswer? {
        return Crashed, false, heard;
      }
      ghost var rows1, records1, origin1 := rows, records, origin;
      result, halve := SettleOnce(target, items, k, heard, old(records).Keys);
      SettledMovesOn(old(rows), old(records), old(origin), old(written), rows1, records1, origin1, rows, records, written);
    }

    /** The attempt that was just answered is settled. */
    method SettleOnce(target: Target, items: seq<Item>, k: nat, answer: Answer, ghost before: set<nat>)
      returns (result: SendResult, halve: bool)
      requires Valid() && k in records && records[k] == Record(target, ItemIds(items), InFlight) && !answer.NoAnswer?
      requires items != [] && k !in before && records.Keys == before + {k}
      requires answer.Written? ==> forall id :: id in ItemIds(items) ==> Pair(id, target) in written
      requires answer.NotWrittenRetry? || answer.NotWrittenTooLarge? || answer.NotWritten? ==>
        forall id :: id in ItemIds(items) ==> Pair(id, target) !in written
      modifies `rows, `records
      ensures Valid() && !result.Crashed?
      ensures halve <==> answer.NotWrittenTooLarge? && |items| > 1
      ensures halve ==> records.Keys == before && forall id :: id in ItemIds(items) ==> Healthy(rows, records, id, target)
      ensures !halve ==> SentOn(before, rows, records, written, target, result, Alike(ItemIds(items), Heard(answer)))
      ensures RowsMoved(old(rows), origin, rows) && OldRecordsStay(before, old(records), records)
      ensures forall id, t {:trigger Healthy(rows, records, id, t)} ::
          t in TargetSet() && Healthy(old(rows), old(records), id, t) ==> Healthy(rows, records, id, t)
    {
      ghost var rows1, records1 := rows, records;
      result, halve := Settle(k, answer, |items| > 1);
      SettledOnce(before, items, target, k, answer, rows1, records1, origin, rows, records, written);
    }

    /** Each row of a batch has its fate, the result sums them up, and nothing else was kept. */
    twostate predicate Sent(items: seq<Item>, target: Target, result: SendResult, said: map<nat, Said>)
      reads this
    {
      && Onwards() && NoNewInFlight() && said.Keys == ItemIds(items)
      && SentOn(old(records).Keys, rows, records, written, target, result, said)
    }

    /** Keeps a row that cannot be sent for an operator, as never written. */
    method PreserveInsert(target: Target, item: Item)
      requires Valid() && target in TargetSet() && Healthy(rows, records, item.id, target)
      modifies `records, `nextRecord
      ensures Valid() && OthersStayFree({item.id}, target)
      ensures Sent([item], target, BlockedRows, map[item.id := CannotSend])
    {
      ghost var before := records.Keys;
      var k := InsertRecord(target, {item.id}, Blocked(true));
      KeptAlone(before, records, k, item, target);
    }

    lemma KeptAlone(before: set<nat>, records: map<nat, Record>, k: nat, item: Item, target: Target)
      requires k !in before && k in records && records[k] == Record(target, {item.id}, Blocked(true))
      ensures SentOn(before, rows, records, written, target, BlockedRows, map[item.id := CannotSend])
      ensures ItemIds([item]) == {item.id}
    {
      var said := map[item.id := CannotSend];
      assert KeepsRow(records[k], item.id, target, true, true);
      assert item.id in said && said[item.id] == CannotSend;
    }

    /** Rows that cannot be sent are halved; a single one is kept for an operator. */
    method SendUnsendable(target: Target, items: seq<Item>) returns (result: SendResult, ghost said: map<nat, Said>)
      requires Valid() && target in TargetSet() && Sendable(items, target) && items != []
      modifies this
      ensures Valid() && flushing == old(flushing) && old(written) <= written
      ensures OthersStayFree(ItemIds(items), target)
      ensures !result.Crashed? ==> Sent(items, target, result, said)
      ensures |items| == 1 ==> !result.Crashed? && said == map[items[0].id := CannotSend]
      decreases |items|, 1
    {
      if |items| > 1 {
        result, said := SendHalves(target, items);
      } else {
        assert items == [items[0]];
        assert ItemIds(items) == {items[0].id};
        PreserveInsert(target, items[0]);
        result, said := BlockedRows, map[items[0].id := CannotSend];
      }
    }

    method SendSendable(target: Target, items: seq<Item>) returns (result: SendResult, ghost said: map<nat, Said>)
      requires Valid() && target in TargetSet() && Sendable(items, target) && items != []
      modifies this
      ensures Valid() && flushing == old(flushing) && old(written) <= written
      ensures OthersStayFree(ItemIds(items), target)
      ensures !result.Crashed? ==> Sent(items, target, result, said)
      decreases |items|, 1
    {
      ghost var rows0, records0, origin0, written0 := rows, records, origin, written;
      var halve: bool;
      ghost var answer;
      result, halve, answer := SendOnce(target, items);
      said := Alike(ItemIds(items), Heard(answer));
      if halve {
        ghost var rows1, records1, origin1, written1 := rows, records, origin, written;
        assert records1.Keys == records0.Keys;
        result, said := SendHalves(target, items);
        if !result.Crashed? {
          MovedOnTwice(rows0, records0, origin0, written0, rows1, records1, origin1, written1, rows, records, written);
        }
      }
    }

    /** Sends some rows to one target, halving what cannot go in one request; what was heard of each row tells its fate. */
    method SendTraceBatch(target: Target, items: seq<Item>) returns (result: SendResult, ghost said: map<nat, Said>)
      requires Valid() && target in TargetSet() && Sendable(items, target)
      modifies this
      ensures Valid() && flushing == old(flushing) && old(written) <= written
      ensures OthersStayFree(ItemIds(items), target)
      ensures !result.Crashed? ==> Sent(items, target, result, said)
      decreases |items|, 2
    {
      if items == [] {
        return Confirmed, map[];
      }
      ghost var rows0, records0, origin0, written0 := rows, records, origin, written;
      var parses: bool := *;
      var size: nat := *;
      Pause();
      ghost var rows1, records1, origin1, written1 := rows, records, origin, written;
      if !parses || size > MAX_NDJSON_BYTES {
        result, said := SendUnsendable(target, items);
      } else {
        result, said := SendSendable(target, items);
      }
      if !result.Crashed? {
        MovedOnTwice(rows0, records0, origin0, written0, rows1, records1, origin1, written1, rows, records, written);
      }
    }

    method SendHalves(target: Target, items: seq<Item>) returns (result: SendResult, ghost said: map<nat, Said>)
      requires Valid() && target in TargetSet() && Sendable(items, target) && |items| > 1
      modifies this
      ensures Valid() && flushing == old(flushing) && old(written) <= written
      ensures OthersStayFree(ItemIds(items), target)
      ensures !result.Crashed? ==> Sent(items, target, result, said)
      decreases |items|, 0
    {
      ghost var rows0, records0, origin0, written0 := rows, records, origin, written;
      var middle := (|items| + 1) / 2;
      HalvesAreApart(items, middle);
      ghost var first, second;
      var left, right;
      left, first := SendTraceBatch(target, items[..middle]);
      if left.Crashed? {
        return Crashed, map[];
      }
      ghost var rows1, records1, origin1, written1 := rows, records, origin, written;
      right, second := SendTraceBatch(target, items[middle..]);
      if right.Crashed? {
        return Crashed, map[];
      }
      SentTogether(
        rows0, records0, origin0, written0, rows1, records1, origin1, written1, rows, records, written,
        target, left, right, first, second);
      said := first + second;
      if left.Retryable? || right.Retryable? {
        return Retryable, said;
      }
      return if left.Confirmed? && right.Confirmed? then Confirmed else BlockedRows, said;
    }

    // ---- a flush ----

    /** The oldest rows that are free for a target, at most one batch of them. */
    method SelectHealthyRows(target: Target) returns (items: seq<Item>)
      requires Valid()
      ensures Sendable(items, target) && |items| <= BATCH_SIZE
      ensures forall i, j :: 0 <= i < j < |items| ==> items[i].id < items[j].id
      ensures forall i :: 0 <= i < |items| ==> items[i].id in origin && items[i].data == origin[items[i].id].data
      ensures Oldest(rows, records, target, ItemIds(items))
    {
      items := SelectHealthy(rows, chunks, records, nextRow, target);
      forall id: nat | Healthy(rows, records, id, target) ensures id < nextRow {
        assert id in origin;
      }
      AscendingCount(items);
    }

    /** The rows tried since the flush took this target have their fates. */
    ghost predicate Tried(
      rows0: map<nat, TraceRow>, records0: map<nat, Record>, origin0: map<nat, Origin>, written0: multiset<Pair>,
      target: Target, said: map<nat, Said>)
      reads this
    {
      && MovedOn(rows0, records0, origin0, written0, rows, records, written) && origin0.Keys <= origin.Keys
      && SentOn(records0.Keys, rows, records, written, target, ResultOf(said), said) && said.Keys <= origin0.Keys
      && LeftFree(rows0, records0, rows, records, TargetSet(), target, said.Keys)
    }

    /** One more batch of a target. */
    method FlushBatch(
      target: Target, batch: seq<Item>,
      ghost rows0: map<nat, TraceRow>, ghost records0: map<nat, Record>, ghost origin0: map<nat, Origin>,
      ghost written0: multiset<Pair>, ghost before: map<nat, Said>, ghost rest: set<nat>)
      returns (result: SendResult, ghost said: map<nat, Said>)
      requires Valid() && target in TargetSet() && DistinctIds(batch) && AllFree(rows, records, target, ItemIds(batch) + rest)
      requires rest !! ItemIds(batch) && Tried(rows0, records0, origin0, written0, target, before)
      requires before.Keys !! ItemIds(batch) && ItemIds(batch) <= origin0.Keys
      modifies this
      ensures Valid() && flushing == old(flushing) && old(written) <= written && AllFree(rows, records, target, rest)
      ensures !result.Crashed? ==> NoNewInFlight() && Tried(rows0, records0, origin0, written0, target, said)
      ensures !result.Crashed? ==> said.Keys == before.Keys + ItemIds(batch)
      ensures result.Retryable? ==> ResultOf(said).Retryable?
    {
      ghost var rows1, records1, origin1, written1 := rows, records, origin, written;
      ghost var heard;
      result, heard := SendTraceBatch(target, batch);
      said := before + heard;
      RestStaysFree(rows1, records1, rows, records, TargetSet(), target, ItemIds(batch), rest);
      if !result.Crashed? {
        LeftFreeTwice(rows0, records0, rows1, records1, rows, records, TargetSet(), target, before.Keys, ItemIds(batch));
        SentTogether(
          rows0, records0, origin0, written0, rows1, records1, origin1, written1, rows, records, written,
          target, ResultOf(before), result, before, heard);
        HalvesResult(before, heard);
      }
    }

    /** Sends the batches in order until one must be retried later; false after a crash. */
    method FlushBatches(
      target: Target, batches: seq<seq<Item>>,
      ghost rows0: map<nat, TraceRow>, ghost records0: map<nat, Record>, ghost origin0: map<nat, Origin>,
      ghost written0: multiset<Pair>)
      returns (alive: bool, ghost said: map<nat, Said>)
      requires Valid() && target in TargetSet() && AreApart(batches) && BatchIds(batches) <= origin0.Keys
      requires AllFree(rows, records, target, BatchIds(batches)) && Tried(rows0, records0, origin0, written0, target, map[])
      modifies this
      ensures Valid() && flushing == old(flushing) && old(written) <= written
      ensures alive ==> NoNewInFlight() && Tried(rows0, records0, origin0, written0, target, said)
      ensures alive ==> said.Keys <= BatchIds(batches) && (said.Keys == BatchIds(batches) || ResultOf(said).Retryable?)
      decreases |batches|
    {
      said := map[];
      var i := 0;
      var result := Confirmed;
      assert batches[0..] == batches;
      while i < |batches| && !result.Crashed? && !result.Retryable?
        invariant 0 <= i <= |batches| && Valid() && flushing == old(flushing) && old(written) <= written
        invariant AllFree(rows, records, target, BatchIds(batches[i..]))
        invariant !result.Crashed? ==> said.Keys == BatchIds(batches[..i]) && NoNewInFlight()
        invariant !result.Crashed? ==> Tried(rows0, records0, origin0, written0, target, said)
        invariant result.Retryable? ==> ResultOf(said).Retryable?
        decreases |batches| - i
      {
        NextBatchIds(batches, i);
        result, said := FlushBatch(
          target, batches[i], rows0, records0, origin0, written0, said, BatchIds(batches[i + 1..]));
        i := i + 1;
      }
      PrefixIds(batches, i);
      return !result.Crashed?, said;
    }

    /** Sends the oldest free rows of one target; false after a crash. */
    method FlushTarget(target: Target) returns (alive: bool, ghost said: map<nat, Said>)
      requires Valid() && target in TargetSet() && flushing
      modifies this
      ensures Valid() && flushing && old(written) <= written
      ensures alive ==> NoNewInFlight() && Tried(old(rows), old(records), old(origin), old(written), target, said)
      ensures alive ==> Served(old(rows), old(records), target, said)
    {
      var batches := TakeBatches(target);
      NothingTried(target);
      alive, said := FlushBatches(target, batches, rows, records, origin, written);
      if alive {
        IsServed(old(rows), old(records), target, BatchIds(batches), said);
      }
    }

    /** The oldest free rows, cut into batches. */
    method TakeBatches(target: Target) returns (batches: seq<seq<Item>>)
      requires Valid() && target in TargetSet()
      ensures AreApart(batches) && Oldest(rows, records, target, BatchIds(batches)) && BatchIds(batches) <= origin.Keys
    {
      var items := SelectHealthyRows(target);
      batches := SplitRowsByBytes(items);
      BatchesSendable(items, batches);
      FlattenIds(batches);
    }

    lemma NothingTried(target: Target)
      ensures Tried(rows, records, origin, written, target, map[])
    {}

    /** Every target in turn; false after a crash. */
    method FlushTargets() returns (alive: bool, ghost said: seq<map<nat, Said>>)
      requires Valid() && flushing
      modifies this
      ensures Valid() && flushing && old(written) <= written
      ensures alive ==> NoNewInFlight() && |said| == |targets|
      ensures alive ==> TurnsDone(old(rows), old(records), old(origin), old(written), rows, records, origin, written, targets, said)
    {
      ghost var rows0, records0, origin0, written0 := rows, records, origin, written;
      said := [];
      var i := 0;
      while i < |targets|
        invariant 0 <= i <= |targets| && Valid() && flushing && old(written) <= written && NoNewInFlight()
        invariant |said| == i
        invariant TurnsDone(rows0, records0, origin0, written0, rows, records, origin, written, targets, said)
      {
        ghost var rows1, records1, origin1, written1 := rows, records, origin, written;
        ghost var heard;
        alive, heard := FlushTarget(targets[i]);
        if !alive {
          return;
        }
        TurnTaken(
          rows0, records0, origin0, written0, rows1, records1, origin1, written1, rows, records, origin, written,
          targets, TargetSet(), said, heard);
        said := said + [heard];
        i := i + 1;
      }
      alive := true;
    }

    /**
     * One flush at a time, and none without a healthy row. Every target has its turn: its oldest free rows
     * were tried, unless one is to be tried again, and each has its fate; then the rows that every target
     * has are deleted. If every answer was that rows were written or may be tried again, no record is added.
     */
    method Flush() returns (alive: bool, ghost said: seq<map<nat, Said>>)
      requires Valid() && targets != []
      modifies this
      ensures Valid() && old(written) <= written
      ensures old(flushing || !AnyHealthy()) ==> alive && flushing == old(flushing) && rows == old(rows) && records == old(records)
      ensures !old(flushing) && alive ==> !flushing && NoNewInFlight()
      ensures !old(flushing) && alive && old(AnyHealthy()) ==> forall id :: id in rows ==> !FullySent(rows[id])
      ensures !old(flushing) && alive && old(AnyHealthy()) ==>
        && |said| == |targets|
        && TurnsDone(old(rows), old(records), old(origin), old(written), rows, records, origin, written, targets, said)
    {
      said := [];
      if flushing || !AnyHealthy() {
        return true, said;
      }
      flushing := true;
      alive, said := FlushTargets();
      if alive {
        ghost var rows1 := rows;
        DeleteDelivered();
        DoneAfterDeleting(
          old(rows), old(records), old(origin), old(written), rows1, rows, records, origin, written, targets, TargetSet(), said);
        flushing := false;
      }
    }

    /** A row that a flush wrote to every target is gone after it. */
    lemma WrittenEverywhereIsGone(
      rows0: map<nat, TraceRow>, records0: map<nat, Record>, origin0: map<nat, Origin>, written0: multiset<Pair>,
      said: seq<map<nat, Said>>, id: nat)
      requires |said| == |targets| && TurnsDone(rows0, records0, origin0, written0, rows, records, origin, written, targets, said)
      requires forall other :: other in rows ==> !FullySent(rows[other])
      requires forall i :: 0 <= i < |said| ==> id in said[i] && said[i][id] == Heard(Written)
      ensures id !in rows
    {
      if id in rows {
        forall t | t in TargetSet() ensures t in rows[id].sent {
          var i :| 0 <= i < |targets| && targets[i] == t;
          assert Turn(rows0, records0, rows, records, written, t, said[i]);
          assert Fate(records0.Keys, rows, records, written, id, t, said[i][id]);
        }
      }
    }

    method DeleteDelivered()
      requires Valid() && targets != []
      modifies `rows, `chunks
      ensures Valid() && OthersStayFree({}, Clean) && Fewer(old(rows), rows)
      ensures forall id :: id in rows ==> !FullySent(rows[id])
    {
      var ids := Listed(rows.Keys);
      DeleteFullySent(ids);
    }

    /** A restarted object blocks what a crash left in flight: it may or may not have been written. */
    method Restart()
      requires Valid()
      modifies `records, `flushing
      ensures Valid() && !flushing && records == BlockedAll(old(records))
    {
      flushing := false;
      while InFlightIds(records) != {}
        invariant Valid() && !flushing && PartlyBlocked(old(records), records)
        decreases |InFlightIds(records)|
      {
        var k :| k in InFlightIds(records);
        BlockedIsNotInFlight(records, k, false);
        BlockOne(old(records), records, k);
        BlockInsert(k, false);
      }
      AllBlocked(old(records), records);
    }

    // ---- operators ----

    method ConfirmWritten(k: nat)
      requires Valid() && targets != [] && k in records && records[k].state.Blocked?
      requires forall id :: id in records[k].ids ==> Pair(id, records[k].target) in written
      modifies `rows, `chunks, `records
      ensures Valid() && records == old(records)[k := Record(old(records)[k].target, {}, Resolved)]
      ensures OthersStayFree({}, Clean) && RowsMoved(old(rows), origin, rows)
      ensures forall id :: id in old(records)[k].ids ==> Delivered(rows, id, old(records)[k].target)
    {
      var ids := Listed(records[k].ids);
      ResolveIsRelease(records, k);
      ReleaseWritten(k, records[k := Record(records[k].target, {}, Resolved)]);
      DeleteFullySent(ids);
    }

    method ConfirmNotWritten(k: nat)
      requires Valid() && k in records && records[k].state.Blocked?
      requires forall id :: id in records[k].ids ==> Pair(id, records[k].target) !in written
      modifies `records
      ensures Valid() && records == old(records)[k := Record(old(records)[k].target, {}, Resolved)]
      ensures OthersStayFree({}, Clean)
      ensures forall id :: id in old(records)[k].ids ==> Healthy(rows, records, id, old(records)[k].target)
    {
      ResolveIsRelease(records, k);
      ReleaseUnwritten(k, records[k := Record(records[k].target, {}, Resolved)]);
    }

    /**
     * An operator settles a blocked record. They must be right about it: every row of a record
     * confirmed as written was, and no row of one confirmed as not written was.
     */
    method Reconcile(k: nat, wasWritten: bool) returns (settled: bool)
      requires Valid() && targets != []
      requires k in records && wasWritten ==> forall id :: id in records[k].ids ==> Pair(id, records[k].target) in written
      requires k in records && !wasWritten ==> forall id :: id in records[k].ids ==> Pair(id, records[k].target) !in written
      modifies `rows, `chunks, `records
      ensures Valid() && Undisturbed()
      ensures settled <==> k in old(records) && old(records)[k].state.Blocked?
      ensures settled ==> k in records && records[k].state.Resolved?
      ensures settled && wasWritten ==> forall id :: id in old(records)[k].ids ==> Delivered(rows, id, old(records)[k].target)
      ensures settled && !wasWritten ==> forall id :: id in old(records)[k].ids ==> Healthy(rows, records, id, old(records)[k].target)
    {
      settled := k in records && records[k].state.Blocked?;
      if settled {
        if wasWritten {
          ConfirmWritten(k);
        } else {
          ConfirmNotWritten(k);
        }
        ResolvingDisturbsNothing(k);
      }
    }

    twostate lemma ResolvingDisturbsNothing(k: nat)
      requires k in old(records) && old(records)[k].state.Blocked?
      requires records == old(records)[k := Record(old(records)[k].target, {}, Resolved)]
      requires OthersStayFree({}, Clean) && origin == old(origin) && RowsMoved(old(rows), origin, rows)
      requires written == old(written) && flushing == old(flushing) && nextRecord == old(nextRecord)
      ensures Undisturbed()
    {}

    // ---- queueing a message ----

    /** What an accepted message did: its key is known, and each new trace has its one row. */
    twostate predicate Accepted(messageId: string, traces: seq<Trace>)
      reads this
    {
      && processed == old(processed) + {messageId}
      && ledger == LedgerAfter(old(ledger), traces) && repairs == old(repairs) + RepairsOf(old(ledger), traces)
      && forall q :: q in NewTraces(old(ledger), traces) ==> HoldsTrace(rows, origin, q)
    }

    twostate predicate Unchanged()
      reads this
    {
      && rows == old(rows) && chunks == old(chunks) && nextRow == old(nextRow) && ledger == old(ledger)
      && processed == old(processed) && repairs == old(repairs)
    }

    /**
     * Queues the new traces of one message as one transaction: a known message changes nothing, and
     * one trace with invalid ledger metadata rolls the whole message back.
     */
    method InsertMessageTraces(messageId: string, traces: seq<Trace>) returns (status: MessageStatus, queued: nat)
      requires Valid()
      modifies `rows, `chunks, `nextRow, `ledger, `origin, `processed, `repairs
      ensures Valid() && Undisturbed()
      ensures status.Duplicate? <==> messageId in old(processed)
      ensures status.Failed? <==> messageId !in old(processed) && exists t :: t in traces && t.entry.None?
      ensures !status.Inserted? ==> Unchanged() && queued == 0
      ensures status.Inserted? ==> Accepted(messageId, traces) && queued == |NewTraces(old(ledger), traces)|
    {
      status, queued := Duplicate, 0;
      if messageId !in processed {
        var queue, changed, known, valid := SortTraces(ledger, traces);
        status := Failed;
        if valid {
          AcceptMessage(messageId, traces, queue, changed, known);
          status, queued := Inserted, |queue|;
        }
      }
    }

    method AcceptMessage(
      messageId: string, traces: seq<Trace>, queue: seq<Queued>, changed: set<Repair>, known: map<string, string>)
      requires Valid() && queue == NewTraces(ledger, traces) && changed == RepairsOf(ledger, traces)
      requires known == LedgerAfter(ledger, traces)
      modifies `rows, `chunks, `nextRow, `ledger, `origin, `processed, `repairs
      ensures Valid() && Undisturbed() && Accepted(messageId, traces)
    {
      NewTracesFacts(ledger, traces);
      StoreNewTraces(queue, known);
      processed := processed + {messageId};
      repairs := repairs + changed;
    }

    /** Stores the new traces of a message with their ledger entries. */
    method StoreNewTraces(queue: seq<Queued>, known: map<string, string>)
      requires Valid() && DistinctKeys(queue) && KeysOf(queue) !! ledger.Keys && known.Keys == ledger.Keys + KeysOf(queue)
      modifies `rows, `chunks, `nextRow, `ledger, `origin
      ensures Valid() && Undisturbed() && ledger == known
      ensures forall q :: q in queue ==> HoldsTrace(rows, origin, q)
    {
      ghost var origin1: map<nat, Origin>;
      var rows1, chunks1, nextRow1;
      rows1, chunks1, nextRow1, origin1 := GrowTables(
        rows, chunks, nextRow, origin, ledger.Keys, records, TargetSet(), written, nextRecord, queue);
      InstallRows(rows1, chunks1, nextRow1, known, origin1);
      GrowingDisturbsNothing();
    }

    twostate lemma GrowingDisturbsNothing()
      requires Grown(old(rows), old(origin), old(nextRow), rows, origin) && forall id :: id in old(origin) ==> id < old(nextRow)
      requires forall id, t :: Healthy(old(rows), old(records), id, t) ==> Healthy(rows, old(records), id, t)
      requires records == old(records) && written == old(written) && flushing == old(flushing) && nextRecord == old(nextRecord)
      ensures Undisturbed()
    {}

    method InstallRows(
      rows1: map<nat, TraceRow>, chunks1: map<nat, seq<Units>>, nextRow1: nat, known: map<string, string>,
      ghost origin1: map<nat, Origin>)
      requires AllDifferent(targets)
      requires Stores(rows1, chunks1, origin1, known.Keys, nextRow1) && Holds(rows1, records, TargetSet(), nextRecord)
      requires Counts(rows1, records, origin1, TargetSet(), written)
      modifies `rows, `chunks, `nextRow, `ledger, `origin
      ensures Valid() && rows == rows1 && chunks == chunks1 && nextRow == nextRow1 && ledger == known && origin == origin1
    {
      rows, chunks, nextRow, origin, ledger := rows1, chunks1, nextRow1, origin1, known;
    }
  }

  /** A trace with a new ledger key. */
  datatype Queued = Queued(key: string, hash: string, data: Text)

  predicate IsLarge(q: Queued) {
    EncodedBytes(q.data) > MAX_NDJSON_BYTES
  }

  ghost predicate DistinctKeys(queue: seq<Queued>) {
    forall i, j :: 0 <= i < j < |queue| ==> queue[i].key != queue[j].key
  }

  /** The ledger after some traces: the first trace of a key decides its hash. */
  function LedgerAfter(ledger: map<string, string>, traces: seq<Trace>): map<string, string> {
    if traces == [] then ledger
    else
      var known, last := LedgerAfter(ledger, traces[..|traces| - 1]), traces[|traces| - 1];
      if last.entry.None? || last.entry.value.key in known then known
      else known[last.entry.value.key := last.entry.value.hash]
  }

  /** The traces whose key the ledger did not know when they came up. */
  function NewTraces(ledger: map<string, string>, traces: seq<Trace>): seq<Queued> {
    if traces == [] then []
    else
      var init, last := traces[..|traces| - 1], traces[|traces| - 1];
      if last.entry.None? || last.entry.value.key in LedgerAfter(ledger, init) then NewTraces(ledger, init)
      else NewTraces(ledger, init) + [Queued(last.entry.value.key, last.entry.value.hash, last.data)]
  }

  /** The traces whose key the ledger knew with another content. */
  function RepairsOf(ledger: map<string, string>, traces: seq<Trace>): set<Repair> {
    if traces == [] then {}
    else
      var init, last := traces[..|traces| - 1], traces[|traces| - 1];
      var known := LedgerAfter(ledger, init);
      if last.entry.None? || last.entry.value.key !in known || known[last.entry.value.key] == last.entry.value.hash
      then RepairsOf(ledger, init)
      else RepairsOf(ledger, init) + {Repair(last.entry.value.key, known[last.entry.value.key], last.entry.value.hash)}
  }

  function KeysOf(queue: seq<Queued>): set<string> {
    set q | q in queue :: q.key
  }

  /** The new traces have different keys that the ledger lacked, and they are all it gains. */
  lemma {:induction false} NewTracesFacts(ledger: map<string, string>, traces: seq<Trace>)
    ensures DistinctKeys(NewTraces(ledger, traces)) && KeysOf(NewTraces(ledger, traces)) !! ledger.Keys
    ensures LedgerAfter(ledger, traces).Keys == ledger.Keys + KeysOf(NewTraces(ledger, traces))
  {
    if traces != [] {
      var init, last := traces[..|traces| - 1], traces[|traces| - 1];
      NewTracesFacts(ledger, init);
      var before := NewTraces(ledger, init);
      if last.entry.Some? && last.entry.value.key !in LedgerAfter(ledger, init) {
        var q := Queued(last.entry.value.key, last.entry.value.hash, last.data);
        assert KeysOf(before + [q]) == KeysOf(before) + {q.key};
        forall i | 0 <= i < |before| ensures before[i].key != q.key {
          assert before[i].key in KeysOf(before);
        }
      }
    }
  }

  /** What one more valid trace adds. */
  lemma OneMoreTrace(ledger: map<string, string>, init: seq<Trace>, last: Trace)
    requires last.entry.Some?
    ensures
      var known, key, hash := LedgerAfter(ledger, init), last.entry.value.key, last.entry.value.hash;
      && LedgerAfter(ledger, init + [last]) == (if key in known then known else known[key := hash])
      && NewTraces(ledger, init + [last]) ==
         NewTraces(ledger, init) + (if key in known then [] else [Queued(key, hash, last.data)])
      && RepairsOf(ledger, init + [last]) ==
         RepairsOf(ledger, init) + (if key in known && known[key] != hash then {Repair(key, known[key], hash)} else {})
  {
    assert (init + [last])[..|init + [last]| - 1] == init;
  }

  /** Sorts the traces of a message into new ones, changed ones and repeats; stops at an invalid one. */
  method SortTraces(ledger: map<string, string>, traces: seq<Trace>)
    returns (queue: seq<Queued>, changed: set<Repair>, known: map<string, string>, valid: bool)
    ensures valid <==> forall t :: t in traces ==> t.entry.Some?
    ensures valid ==> queue == NewTraces(ledger, traces) && changed == RepairsOf(ledger, traces)
    ensures valid ==> known == LedgerAfter(ledger, traces)
  {
    queue, changed, known, valid := [], {}, ledger, true;
    for i := 0 to |traces|
      invariant forall t :: t in traces[..i] ==> t.entry.Some?
      invariant queue == NewTraces(ledger, traces[..i]) && changed == RepairsOf(ledger, traces[..i])
      invariant known == LedgerAfter(ledger, traces[..i])
    {
      var trace := traces[i];
      assert traces[..i + 1] == traces[..i] + [trace];
      if trace.entry.None? {
        valid := false;
        return;
      }
      OneMoreTrace(ledger, traces[..i], trace);
      var key, hash := trace.entry.value.key, trace.entry.value.hash;
      if key in known {
        if known[key] != hash {
          changed := changed + {Repair(key, known[key], hash)};
        }
      } else {
        known := known[key := hash];
        queue := queue + [Queued(key, hash, trace.data)];
      }
    }
    assert traces[..|traces|] == traces;
  }

  // ---- storing new rows ----

  /** A row was queued for this trace and is still there. */
  ghost predicate HoldsTrace(rows: map<nat, TraceRow>, origin: map<nat, Origin>, q: Queued) {
    exists id :: id in rows && id in origin && origin[id] == Origin(q.key, q.data)
  }

  /** Only new, unsent rows were added, under fresh numbers. */
  ghost predicate Grown(
    rows: map<nat, TraceRow>, origin: map<nat, Origin>, nextRow: nat, rows1: map<nat, TraceRow>, origin1: map<nat, Origin>)
  {
    && (forall id :: id in rows ==> id in rows1 && rows1[id] == rows[id])
    && (forall id :: id in rows1 && id !in rows ==> id >= nextRow && rows1[id].sent == {})
    && (forall id :: id in origin ==> id in origin1 && origin1[id] == origin[id])
    && (forall id :: id in origin1 && id !in origin ==> id >= nextRow && id in rows1)
  }

  lemma GrownKeeps(
    rows: map<nat, TraceRow>, records: map<nat, Record>, origin: map<nat, Origin>, targets: set<Target>,
    written: multiset<Pair>, nextRow: nat, nextRecord: nat, rows1: map<nat, TraceRow>, origin1: map<nat, Origin>)
    requires Holds(rows, records, targets, nextRecord) && Counts(rows, records, origin, targets, written)
    requires Grown(rows, origin, nextRow, rows1, origin1) && forall id :: id in origin ==> id < nextRow
    ensures Holds(rows1, records, targets, nextRecord) && Counts(rows1, records, origin1, targets, written)
    ensures forall id, t :: Healthy(rows, records, id, t) ==> Healthy(rows1, records, id, t)
  {
    forall id, t | Healthy(rows1, records, id, t) ensures Pair(id, t) !in written {
      if id in rows {
        assert Healthy(rows, records, id, t);
      }
    }
  }

  /** Stores the queue of a message beside the recovery records, which it does not concern. */
  method GrowTables(
    rows: map<nat, TraceRow>, chunks: map<nat, seq<Units>>, nextRow: nat, ghost origin: map<nat, Origin>,
    ghost keys: set<string>, ghost records: map<nat, Record>, ghost targets: set<Target>, ghost written: multiset<Pair>,
    ghost nextRecord: nat, queue: seq<Queued>)
    returns (rows1: map<nat, TraceRow>, chunks1: map<nat, seq<Units>>, nextRow1: nat, ghost origin1: map<nat, Origin>)
    requires Stores(rows, chunks, origin, keys, nextRow) && Holds(rows, records, targets, nextRecord)
    requires Counts(rows, records, origin, targets, written) && DistinctKeys(queue) && KeysOf(queue) !! keys
    ensures Stores(rows1, chunks1, origin1, keys + KeysOf(queue), nextRow1) && Holds(rows1, records, targets, nextRecord)
    ensures Counts(rows1, records, origin1, targets, written) && Grown(rows, origin, nextRow, rows1, origin1)
    ensures forall id, t :: Healthy(rows, records, id, t) ==> Healthy(rows1, records, id, t)
    ensures forall q :: q in queue ==> HoldsTrace(rows1, origin1, q)
  {
    rows1, chunks1, nextRow1, origin1 := StoreMessage(rows, chunks, nextRow, origin, keys, queue);
    GrownKeeps(rows, records, origin, targets, written, nextRow, nextRecord, rows1, origin1);
  }

  /** Stores the queue of a message: first the traces that fit in a row, then the large ones. */
  method StoreMessage(
    rows: map<nat, TraceRow>, chunks: map<nat, seq<Units>>, nextRow: nat, ghost origin: map<nat, Origin>,
    ghost keys: set<string>, queue: seq<Queued>)
    returns (rows1: map<nat, TraceRow>, chunks1: map<nat, seq<Units>>, nextRow1: nat, ghost origin1: map<nat, Origin>)
    requires Stores(rows, chunks, origin, keys, nextRow) && DistinctKeys(queue) && KeysOf(queue) !! keys
    ensures Stores(rows1, chunks1, origin1, keys + KeysOf(queue), nextRow1)
    ensures Grown(rows, origin, nextRow, rows1, origin1)
    ensures forall q :: q in queue ==> HoldsTrace(rows1, origin1, q)
  {
    PassesApart(queue);
    rows1, chunks1, nextRow1, origin1 := StorePass(rows, chunks, nextRow, origin, keys, queue, false);
    ghost var rows0, origin0 := rows1, origin1;
    rows1, chunks1, nextRow1, origin1 :=
      StorePass(rows1, chunks1, nextRow1, origin1, keys + PassKeys(queue, false), queue, true);
    assert keys + PassKeys(queue, false) + PassKeys(queue, true) == keys + KeysOf(queue);
    forall q | q in queue ensures HoldsTrace(rows1, origin1, q) {
      if !IsLarge(q) {
        StillHoldsTrace(rows0, origin0, rows1, origin1, q);
      }
    }
  }

  function PassKeys(queue: seq<Queued>, large: bool): set<string> {
    set q | q in queue && IsLarge(q) == large :: q.key
  }

  lemma PassesApart(queue: seq<Queued>)
    requires DistinctKeys(queue)
    ensures PassKeys(queue, false) !! PassKeys(queue, true)
    ensures PassKeys(queue, false) + PassKeys(queue, true) == KeysOf(queue)
  {
    forall a, b | a in queue && b in queue && a.key == b.key ensures a == b {
      var i :| 0 <= i < |queue| && queue[i] == a;
      var j :| 0 <= j < |queue| && queue[j] == b;
    }
    forall key | key in KeysOf(queue) ensures key in PassKeys(queue, false) + PassKeys(queue, true) {
      var q :| q in queue && q.key == key;
      assert q.key in PassKeys(queue, IsLarge(q));
    }
  }

  lemma StillHoldsTrace(
    rows: map<nat, TraceRow>, origin: map<nat, Origin>, rows1: map<nat, TraceRow>, origin1: map<nat, Origin>, q: Queued)
    requires HoldsTrace(rows, origin, q)
    requires forall id :: id in rows ==> id in rows1
    requires forall id :: id in origin ==> id in origin1 && origin1[id] == origin[id]
    ensures HoldsTrace(rows1, origin1, q)
  {
    var id :| id in rows && id in origin && origin[id] == Origin(q.key, q.data);
    assert id in rows1 && origin1[id] == Origin(q.key, q.data);
  }

  /** Stores the traces of one pass, each whole: in its row, or in chunks that join to it. */
  method StorePass(
    rows: map<nat, TraceRow>, chunks: map<nat, seq<Units>>, nextRow: nat, ghost origin: map<nat, Origin>,
    ghost keys: set<string>, queue: seq<Queued>, large: bool)
    returns (rows1: map<nat, TraceRow>, chunks1: map<nat, seq<Units>>, nextRow1: nat, ghost origin1: map<nat, Origin>)
    requires Stores(rows, chunks, origin, keys, nextRow) && DistinctKeys(queue) && PassKeys(queue, large) !! keys
    ensures Stores(rows1, chunks1, origin1, keys + PassKeys(queue, large), nextRow1) && nextRow1 >= nextRow
    ensures Grown(rows, origin, nextRow, rows1, origin1)
    ensures forall q :: q in queue && IsLarge(q) == large ==> HoldsTrace(rows1, origin1, q)
  {
    rows1, chunks1, nextRow1, origin1 := rows, chunks, nextRow, origin;
    for i := 0 to |queue|
      invariant Stores(rows1, chunks1, origin1, keys + PassKeys(queue[..i], large), nextRow1) && nextRow1 >= nextRow
      invariant Grown(rows, origin, nextRow, rows1, origin1)
      invariant AllHeld(rows1, origin1, queue[..i], large)
    {
      PassNext(queue, i, large, keys);
      if IsLarge(queue[i]) == large {
        ghost var rows0, origin0, nextRow0 := rows1, origin1, nextRow1;
        rows1, chunks1, nextRow1, origin1 :=
          StoreOne(rows1, chunks1, nextRow1, origin1, keys + PassKeys(queue[..i], large), queue[i]);
        GrownByOne(rows, origin, nextRow, rows0, origin0, rows1, origin1, nextRow0, queue[i]);
        HeldByOne(rows0, origin0, rows1, origin1, nextRow0, queue, i, large);
      }
    }
    assert queue[..|queue|] == queue;
  }

  ghost predicate AllHeld(rows: map<nat, TraceRow>, origin: map<nat, Origin>, queue: seq<Queued>, large: bool) {
    forall q :: q in queue && IsLarge(q) == large ==> HoldsTrace(rows, origin, q)
  }

  lemma GrownByOne(
    rows: map<nat, TraceRow>, origin: map<nat, Origin>, nextRow: nat,
    rows0: map<nat, TraceRow>, origin0: map<nat, Origin>, rows1: map<nat, TraceRow>, origin1: map<nat, Origin>, id: nat,
    q: Queued)
    requires Grown(rows, origin, nextRow, rows0, origin0) && id >= nextRow && id !in rows0 && id !in origin0
    requires rows1.Keys == rows0.Keys + {id} && rows1[id].sent == {}
    requires forall i :: i in rows0 && i != id ==> rows1[i] == rows0[i]
    requires origin1 == origin0[id := Origin(q.key, q.data)]
    ensures Grown(rows, origin, nextRow, rows1, origin1)
  {}

  lemma HeldByOne(
    rows0: map<nat, TraceRow>, origin0: map<nat, Origin>, rows1: map<nat, TraceRow>, origin1: map<nat, Origin>, id: nat,
    queue: seq<Queued>, i: nat, large: bool)
    requires i < |queue| && queue[..i + 1] == queue[..i] + [queue[i]]
    requires AllHeld(rows0, origin0, queue[..i], large) && id !in origin0
    requires rows1.Keys == rows0.Keys + {id} && origin1 == origin0[id := Origin(queue[i].key, queue[i].data)]
    ensures AllHeld(rows1, origin1, queue[..i + 1], large)
  {
    forall q | q in queue[..i + 1] && IsLarge(q) == large ensures HoldsTrace(rows1, origin1, q) {
      if q in queue[..i] {
        StillHoldsTrace(rows0, origin0, rows1, origin1, q);
      } else {
        assert id in rows1 && origin1[id] == Origin(q.key, q.data);
      }
    }
  }

  lemma PassNext(queue: seq<Queued>, i: nat, large: bool, keys: set<string>)
    requires i < |queue| && DistinctKeys(queue) && PassKeys(queue, large) !! keys
    ensures queue[..i + 1] == queue[..i] + [queue[i]]
    ensures keys + PassKeys(queue[..i + 1], large) ==
      keys + PassKeys(queue[..i], large) + if IsLarge(queue[i]) == large then {queue[i].key} else {}
    ensures IsLarge(queue[i]) == large ==> queue[i].key !in keys + PassKeys(queue[..i], large)
  {
    assert queue[..i + 1] == queue[..i] + [queue[i]];
    forall q | q in queue[..i] ensures q.key != queue[i].key {
      var j :| 0 <= j < i && queue[j] == q;
    }
    if IsLarge(queue[i]) == large {
      assert queue[i].key in PassKeys(queue, large);
    }
  }

  /** Stores one new trace under the next row number. */
  method StoreOne(
    rows: map<nat, TraceRow>, chunks: map<nat, seq<Units>>, nextRow: nat, ghost origin: map<nat, Origin>,
    ghost keys: set<string>, q: Queued)
    returns (rows1: map<nat, TraceRow>, chunks1: map<nat, seq<Units>>, nextRow1: nat, ghost origin1: map<nat, Origin>)
    requires Stores(rows, chunks, origin, keys, nextRow) && q.key !in keys
    ensures Stores(rows1, chunks1, origin1, keys + {q.key}, nextRow1) && nextRow1 == nextRow + 1
    ensures rows1.Keys == rows.Keys + {nextRow} && rows1[nextRow].sent == {}
    ensures forall id :: id in rows && id != nextRow ==> rows1[id] == rows[id]
    ensures origin1 == origin[nextRow := Origin(q.key, q.data)]
  {
    var stored: seq<Units> := [];
    if EncodedBytes(q.data) > MAX_NDJSON_BYTES {
      var split := SplitChunks(q.data, MAX_NDJSON_BYTES);
      stored := split.value;
    }
    var row := TraceRow(if stored == [] then q.data else [], {});
    StoreKeeps(rows, chunks, origin, keys, nextRow, q, row, stored);
    rows1 := rows[nextRow := row];
    chunks1 := if stored == [] then chunks else chunks[nextRow := stored];
    origin1 := origin[nextRow := Origin(q.key, q.data)];
    nextRow1 := nextRow + 1;
  }

  lemma StoreKeeps(
    rows: map<nat, TraceRow>, chunks: map<nat, seq<Units>>, origin: map<nat, Origin>, keys: set<string>, nextRow: nat,
    q: Queued, row: TraceRow, stored: seq<Units>)
    requires Stores(rows, chunks, origin, keys, nextRow) && q.key !in keys
    requires row == TraceRow(if stored == [] then q.data else [], {}) && (stored != [] ==> Join(stored) == q.data)
    ensures
      var chunks1 := if stored == [] then chunks else chunks[nextRow := stored];
      Stores(rows[nextRow := row], chunks1, origin[nextRow := Origin(q.key, q.data)], keys + {q.key}, nextRow + 1)
  {
    var rows1, origin1 := rows[nextRow := row], origin[nextRow := Origin(q.key, q.data)];
    var chunks1 := if stored == [] then chunks else chunks[nextRow := stored];
    forall id | id in rows1 ensures id in origin1 && Stored(rows1, chunks1, id) == origin1[id].data {
      if id != nextRow {
        assert Stored(rows1, chunks1, id) == Stored(rows, chunks, id);
      }
    }
    forall key | key in keys + {q.key} ensures IsQueued(origin1, key) {
      if key == q.key {
        assert origin1[nextRow].key == key;
      } else {
        assert IsQueued(origin, key);
        var id :| id in origin && origin[id].key == key;
        assert origin1[id].key == key;
      }
    }
  }

  function ItemIds(items: seq<Item>): set<nat> {
    set item | item in items :: item.id
  }

  function InFlightIds(records: map<nat, Record>): set<nat> {
    set k | k in records && records[k].state.InFlight?
  }

  /** What a restart makes of a record. */
  function Uncertain(r: Record): Record {
    if r.state.InFlight? then r.(state := Blocked(false)) else r
  }

  function BlockedAll(records: map<nat, Record>): map<nat, Record> {
    map k | k in records :: Uncertain(records[k])
  }

  ghost predicate PartlyBlocked(before: map<nat, Record>, now: map<nat, Record>) {
    now.Keys == before.Keys && forall k :: k in now ==> now[k] == before[k] || now[k] == Uncertain(before[k])
  }

  lemma BlockOne(before: map<nat, Record>, now: map<nat, Record>, k: nat)
    requires PartlyBlocked(before, now) && k in InFlightIds(now)
    ensures PartlyBlocked(before, now[k := now[k].(state := Blocked(false))])
  {
    assert now[k] == before[k];
  }

  lemma AllBlocked(before: map<nat, Record>, now: map<nat, Record>)
    requires PartlyBlocked(before, now) && InFlightIds(now) == {}
    ensures now == BlockedAll(before)
  {
    forall k | k in now ensures now[k] == Uncertain(before[k]) {
      assert k !in InFlightIds(now);
    }
  }

  lemma BlockedIsNotInFlight(records: map<nat, Record>, k: nat, rejected: bool)
    requires k in InFlightIds(records)
    ensures InFlightIds(records[k := records[k].(state := Blocked(rejected))]) == InFlightIds(records) - {k}
  {}

  lemma ItemIdsAppend(items: seq<Item>, item: Item)
    ensures ItemIds(items + [item]) == ItemIds(items) + {item.id}
  {}

  lemma ResolveIsRelease(records: map<nat, Record>, k: nat)
    requires k in records
    ensures Released(records, k, records[k := Record(records[k].target, {}, Resolved)])
  {
    assert records[k := Record(records[k].target, {}, Resolved)] - {k} == records - {k};
  }

  function Flatten(batches: seq<seq<Item>>): seq<Item> {
    if batches == [] then [] else Flatten(batches[..|batches| - 1]) + batches[|batches| - 1]
  }

  /** The size of a batch: its texts with one separator between each two. */
  function BatchBytes(items: seq<Item>): nat {
    if items == [] then 0
    else BatchBytes(items[..|items| - 1]) + EncodedBytes(items[|items| - 1].data) + if |items| > 1 then 1 else 0
  }

  lemma FlattenAppend(batches: seq<seq<Item>>, batch: seq<Item>)
    ensures Flatten(batches + [batch]) == Flatten(batches) + batch
  {
    assert (batches + [batch])[..|batches|] == batches;
  }

  lemma BatchBytesAppend(items: seq<Item>, item: Item)
    ensures BatchBytes(items + [item]) == BatchBytes(items) + EncodedBytes(item.data) + if items != [] then 1 else 0
  {
    assert (items + [item])[..|items|] == items;
  }

  predicate FitsOrSingle(batch: seq<Item>) {
    batch != [] && (BatchBytes(batch) <= MAX_NDJSON_BYTES || |batch| == 1)
  }

  /** No row that opens a batch would have fitted into the batch before it. */
  ghost predicate Tight(before: seq<Item>, after: seq<Item>) {
    after != [] && BatchBytes(before) + EncodedBytes(after[0].data) + 1 > MAX_NDJSON_BYTES
  }

  ghost predicate Cut(batches: seq<seq<Item>>) {
    && (forall i :: 0 <= i < |batches| ==> FitsOrSingle(batches[i]))
    && (forall i :: 0 < i < |batches| ==> Tight(batches[i - 1], batches[i]))
  }

  /** Whether the batch being filled may follow the finished ones. */
  ghost predicate Follows(batches: seq<seq<Item>>, current: seq<Item>) {
    if current == [] then batches == []
    else FitsOrSingle(current) && (batches != [] ==> Tight(batches[|batches| - 1], current))
  }

  /** Where the cutting stands: finished batches, the one being filled, and together the rows so far. */
  ghost predicate Splitting(done: seq<Item>, batches: seq<seq<Item>>, current: seq<Item>) {
    Flatten(batches) + current == done && Cut(batches) && Follows(batches, current)
  }

  /** Cuts rows into batches: in order, none empty, and each within the limit unless it is one row. */
  method SplitRowsByBytes(items: seq<Item>) returns (batches: seq<seq<Item>>)
    ensures Flatten(batches) == items && Cut(batches)
  {
    batches := [];
    var current: seq<Item> := [];
    var bytes := 0;
    for i := 0 to |items|
      invariant Splitting(items[..i], batches, current) && bytes == BatchBytes(current)
    {
      var item := items[i];
      var rowBytes := EncodedBytes(item.data) + if |current| > 0 then 1 else 0;
      assert items[..i + 1] == items[..i] + [item];
      if |current| > 0 && bytes + rowBytes > MAX_NDJSON_BYTES {
        CloseBatch(items[..i], batches, current, item);
        batches := batches + [current];
        current, bytes := [], 0;
        rowBytes := EncodedBytes(item.data);
      } else {
        GrowBatch(items[..i], batches, current, item);
      }
      BatchBytesAppend(current, item);
      current := current + [item];
      bytes := bytes + rowBytes;
    }
    assert items[..|items|] == items;
    if |current| > 0 {
      FinishBatches(items, batches, current);
      batches := batches + [current];
    }
  }

  lemma CloseBatch(done: seq<Item>, batches: seq<seq<Item>>, current: seq<Item>, item: Item)
    requires Splitting(done, batches, current) && current != []
    requires BatchBytes(current) + EncodedBytes(item.data) + 1 > MAX_NDJSON_BYTES
    ensures Splitting(done + [item], batches + [current], [] + [item])
  {
    FlattenAppend(batches, current);
    assert [] + [item] == [item] && [item][0] == item;
  }

  lemma GrowBatch(done: seq<Item>, batches: seq<seq<Item>>, current: seq<Item>, item: Item)
    requires Splitting(done, batches, current)
    requires current == [] || BatchBytes(current) + EncodedBytes(item.data) + 1 <= MAX_NDJSON_BYTES
    ensures Splitting(done + [item], batches, current + [item])
  {
    BatchBytesAppend(current, item);
    assert Flatten(batches) + (current + [item]) == done + [item];
    if current != [] {
      assert (current + [item])[0] == current[0];
    }
  }

  lemma FinishBatches(items: seq<Item>, batches: seq<seq<Item>>, current: seq<Item>)
    requires Splitting(items, batches, current) && current != []
    ensures Flatten(batches + [current]) == items && Cut(batches + [current])
  {
    FlattenAppend(batches, current);
  }

  /** Every batch is made of different rows of the whole. */
  lemma {:induction false} BatchIsPart(batches: seq<seq<Item>>, i: nat)
    requires DistinctIds(Flatten(batches)) && i < |batches|
    ensures DistinctIds(batches[i]) && ItemIds(batches[i]) <= ItemIds(Flatten(batches))
  {
    var init, last := batches[..|batches| - 1], batches[|batches| - 1];
    HalvesAreApart(Flatten(batches), |Flatten(init)|);
    assert Flatten(batches)[..|Flatten(init)|] == Flatten(init) && Flatten(batches)[|Flatten(init)|..] == last;
    if i < |init| {
      BatchIsPart(init, i);
    }
  }

  /** The rows of two batches are different rows. */
  lemma {:induction false} BatchesApart(batches: seq<seq<Item>>, i: nat, j: nat)
    requires DistinctIds(Flatten(batches)) && i < j < |batches|
    ensures ItemIds(batches[i]) !! ItemIds(batches[j])
  {
    var init, last := batches[..|batches| - 1], batches[|batches| - 1];
    HalvesAreApart(Flatten(batches), |Flatten(init)|);
    assert Flatten(batches)[..|Flatten(init)|] == Flatten(init) && Flatten(batches)[|Flatten(init)|..] == last;
    if j < |init| {
      BatchesApart(init, i, j);
    } else {
      BatchIsPart(init, i);
    }
  }

  lemma BatchesSendable(items: seq<Item>, batches: seq<seq<Item>>)
    requires DistinctIds(items) && Flatten(batches) == items
    ensures forall i :: 0 <= i < |batches| ==> DistinctIds(batches[i]) && ItemIds(batches[i]) <= ItemIds(items)
    ensures forall i, j :: 0 <= i < j < |batches| ==> ItemIds(batches[i]) !! ItemIds(batches[j])
  {
    forall i | 0 <= i < |batches| ensures DistinctIds(batches[i]) && ItemIds(batches[i]) <= ItemIds(items) {
      BatchIsPart(batches, i);
    }
    forall i, j | 0 <= i < j < |batches| ensures ItemIds(batches[i]) !! ItemIds(batches[j]) {
      BatchesApart(batches, i, j);
    }
  }

  function BatchIds(batches: seq<seq<Item>>): set<nat> {
    set i, id | 0 <= i < |batches| && id in ItemIds(batches[i]) :: id
  }

  /** Every row is in one batch, and there once. */
  ghost predicate AreApart(batches: seq<seq<Item>>) {
    && (forall i :: 0 <= i < |batches| ==> DistinctIds(batches[i]))
    && (forall i, j :: 0 <= i < j < |batches| ==> ItemIds(batches[i]) !! ItemIds(batches[j]))
  }

  lemma NextBatchIds(batches: seq<seq<Item>>, i: nat)
    requires i < |batches| && AreApart(batches)
    ensures BatchIds(batches[..i + 1]) == BatchIds(batches[..i]) + ItemIds(batches[i])
    ensures BatchIds(batches[..i]) !! ItemIds(batches[i]) && BatchIds(batches[i + 1..]) !! ItemIds(batches[i])
    ensures BatchIds(batches[i..]) == ItemIds(batches[i]) + BatchIds(batches[i + 1..])
    ensures ItemIds(batches[i]) <= BatchIds(batches) && BatchIds(batches[..i]) <= BatchIds(batches)
  {
    NextSuffixIds(batches, i);
    assert batches[..i + 1] == batches[..i] + [batches[i]];
    forall id | id in BatchIds(batches[..i]) ensures id !in ItemIds(batches[i]) && id in BatchIds(batches[..i + 1]) {
      var j :| 0 <= j < i && id in ItemIds(batches[..i][j]);
      assert batches[..i + 1][j] == batches[j];
    }
    forall id | id in ItemIds(batches[i]) ensures id in BatchIds(batches[..i + 1]) {
      assert batches[..i + 1][i] == batches[i];
    }
  }

  lemma PrefixIds(batches: seq<seq<Item>>, i: nat)
    requires i <= |batches|
    ensures BatchIds(batches[..i]) <= BatchIds(batches) && (i == |batches| ==> BatchIds(batches[..i]) == BatchIds(batches))
  {
    forall id | id in BatchIds(batches[..i]) ensures id in BatchIds(batches) {
      var j :| 0 <= j < i && id in ItemIds(batches[..i][j]);
      assert batches[j] == batches[..i][j];
    }
    if i == |batches| {
      assert batches[..i] == batches;
    }
  }

  lemma NextSuffixIds(batches: seq<seq<Item>>, i: nat)
    requires i < |batches| && AreApart(batches)
    ensures BatchIds(batches[i + 1..]) !! ItemIds(batches[i])
    ensures BatchIds(batches[i..]) == ItemIds(batches[i]) + BatchIds(batches[i + 1..])
    ensures ItemIds(batches[i]) <= BatchIds(batches) && BatchIds(batches[..i]) <= BatchIds(batches)
  {
    forall id | id in BatchIds(batches[i + 1..]) ensures id !in ItemIds(batches[i]) && id in BatchIds(batches[i..]) {
      var j :| 0 <= j < |batches[i + 1..]| && id in ItemIds(batches[i + 1..][j]);
      assert batches[i..][j + 1] == batches[i + 1..][j] == batches[i + 1 + j];
    }
    forall id | id in ItemIds(batches[i]) ensures id in BatchIds(batches[i..]) && id in BatchIds(batches) {
      assert batches[i..][0] == batches[i];
    }
    forall id | id in BatchIds(batches[i..]) && id !in ItemIds(batches[i]) ensures id in BatchIds(batches[i + 1..]) {
      var j :| 0 <= j < |batches[i..]| && id in ItemIds(batches[i..][j]);
      assert batches[i + 1..][j - 1] == batches[i..][j];
    }
    forall id | id in BatchIds(batches[..i]) ensures id in BatchIds(batches) {
      var j :| 0 <= j < i && id in ItemIds(batches[..i][j]);
      assert batches[j] == batches[..i][j];
    }
  }

  lemma {:induction false} FlattenIds(batches: seq<seq<Item>>)
    ensures BatchIds(batches) == ItemIds(Flatten(batches))
  {
    if batches != [] {
      var init, last := batches[..|batches| - 1], batches[|batches| - 1];
      FlattenIds(init);
      assert batches == init + [last];
      assert ItemIds(Flatten(init) + last) == ItemIds(Flatten(init)) + ItemIds(last);
      forall id ensures id in BatchIds(batches) <==> id in BatchIds(init) + ItemIds(last) {
        if id in BatchIds(init) {
          var j :| 0 <= j < |init| && id in ItemIds(init[j]);
          assert batches[j] == init[j];
        }
        if id in ItemIds(last) {
          assert batches[|init|] == last;
        }
      }
    }
  }

  lemma {:induction false} AscendingCount(items: seq<Item>)
    requires forall i, j :: 0 <= i < j < |items| ==> items[i].id < items[j].id
    ensures |ItemIds(items)| == |items|
  {
    if items != [] {
      var init, last := items[..|items| - 1], items[|items| - 1];
      AscendingCount(init);
      assert items == init + [last];
      ItemIdsAppend(init, last);
      forall item | item in init ensures item.id != last.id {}
      assert last.id !in ItemIds(init);
    }
  }

  /** The rows free for a target, oldest first, with their texts loaded. */
  method SelectHealthy(
    rows: map<nat, TraceRow>, chunks: map<nat, seq<Units>>, records: map<nat, Record>, nextRow: nat, target: Target)
    returns (items: seq<Item>)
    ensures |items| <= BATCH_SIZE
    ensures forall i :: 0 <= i < |items| ==>
      Healthy(rows, records, items[i].id, target) && items[i].data == Stored(rows, chunks, items[i].id)
    ensures forall i, j :: 0 <= i < j < |items| ==> items[i].id < items[j].id
    ensures forall k :: 0 <= k < nextRow && Healthy(rows, records, k, target) && k !in ItemIds(items) ==>
      |items| == BATCH_SIZE && forall i :: 0 <= i < |items| ==> items[i].id < k
  {
    items := [];
    var id := 0;
    while id < nextRow && |items| < BATCH_SIZE
      invariant 0 <= id <= nextRow && |items| <= BATCH_SIZE
      invariant forall i :: 0 <= i < |items| ==> items[i].id < id
      invariant forall i :: 0 <= i < |items| ==>
        Healthy(rows, records, items[i].id, target) && items[i].data == Stored(rows, chunks, items[i].id)
      invariant forall i, j :: 0 <= i < j < |items| ==> items[i].id < items[j].id
      invariant forall k :: 0 <= k < id && Healthy(rows, records, k, target) ==> k in ItemIds(items)
      decreases nextRow - id
    {
      if Healthy(rows, records, id, target) {
        ItemIdsAppend(items, Item(id, Stored(rows, chunks, id)));
        items := items + [Item(id, Stored(rows, chunks, id))];
      }
      id := id + 1;
    }
  }

  ghost predicate DistinctIds(items: seq<Item>) {
    forall i, j :: 0 <= i < j < |items| ==> items[i].id != items[j].id
  }

  lemma HalvesAreApart(items: seq<Item>, middle: nat)
    requires DistinctIds(items) && middle <= |items|
    ensures DistinctIds(items[..middle]) && DistinctIds(items[middle..])
    ensures ItemIds(items[..middle]) !! ItemIds(items[middle..])
    ensures ItemIds(items) == ItemIds(items[..middle]) + ItemIds(items[middle..])
  {
    assert items == items[..middle] + items[middle..];
    forall a, b | a in items[..middle] && b in items[middle..] ensures a.id != b.id {
      var i :| 0 <= i < middle && items[i] == a;
      var j :| middle <= j < |items| && items[j] == b;
    }
  }

  const MARK_CHUNK := 89
  const DELETE_CHUNK := 90

  function IdSet(ids: seq<nat>): set<nat> {
    set id | id in ids
  }

  lemma IdSetConcat(a: seq<nat>, b: seq<nat>)
    ensures IdSet(a + b) == IdSet(a) + IdSet(b)
  {}

  function Marked(rows: map<nat, TraceRow>, ids: set<nat>, target: Target): map<nat, TraceRow> {
    map id | id in rows :: if id in ids then rows[id].(sent := rows[id].sent + {target}) else rows[id]
  }

  /** Marks rows sent to a target, a bounded number of statement parameters at a time. */
  method MarkSent(rows: map<nat, TraceRow>, ids: seq<nat>, target: Target) returns (marked: map<nat, TraceRow>)
    ensures marked == Marked(rows, IdSet(ids), target)
  {
    marked := rows;
    var i := 0;
    MarkedNone(rows, target);
    while i < |ids|
      invariant 0 <= i <= |ids| && marked == Marked(rows, IdSet(ids[..i]), target)
    {
      var end := if |ids| < i + MARK_CHUNK then |ids| else i + MARK_CHUNK;
      assert ids[..end] == ids[..i] + ids[i..end];
      MarkedTwice(rows, IdSet(ids[..i]), IdSet(ids[i..end]), target);
      IdSetConcat(ids[..i], ids[i..end]);
      marked := Marked(marked, IdSet(ids[i..end]), target);
      i := end;
    }
    assert ids[..|ids|] == ids;
  }

  lemma MarkedNone(rows: map<nat, TraceRow>, target: Target)
    ensures Marked(rows, IdSet([]), target) == rows
  {}

  lemma MarkedTwice(rows: map<nat, TraceRow>, a: set<nat>, b: set<nat>, target: Target)
    ensures Marked(Marked(rows, a, target), b, target) == Marked(rows, a + b, target)
  {
    forall id | id in rows
      ensures Marked(Marked(rows, a, target), b, target)[id] == Marked(rows, a + b, target)[id]
    {
      assert rows[id].sent + {target} + {target} == rows[id].sent + {target};
    }
  }

  function PairsOf(ids: set<nat>, target: Target): multiset<Pair> {
    multiset(set id | id in ids :: Pair(id, target))
  }

  method Listed(ids: set<nat>) returns (listed: seq<nat>)
    ensures IdSet(listed) == ids
  {
    listed := [];
    var rest := ids;
    while rest != {}
      invariant rest <= ids && IdSet(listed) == ids - rest
      decreases |rest|
    {
      var id :| id in rest;
      IdSetConcat(listed, [id]);
      assert IdSet([id]) == {id};
      listed := listed + [id];
      rest := rest - {id};
    }
  }

  // ---- how records hold rows ----

  lemma HeldAfterInsert(records: map<nat, Record>, k: nat, r: Record)
    requires k !in records
    ensures forall id, t :: Held(records[k := r], id, t) <==> (Held(records, id, t) || HoldsRow(r, t, id))
  {
    var more := records[k := r];
    forall id, t ensures Held(more, id, t) <==> (Held(records, id, t) || HoldsRow(r, t, id)) {
      if Held(records, id, t) {
        var j :| j in records && HoldsRow(records[j], t, id);
        assert j in more && more[j] == records[j];
      }
      if HoldsRow(r, t, id) {
        assert k in more && more[k] == r;
      }
    }
  }

  lemma InsertKeepsHolds(rows: map<nat, TraceRow>, records: map<nat, Record>, targets: set<Target>, k: nat, r: Record)
    requires Holds(rows, records, targets, k) && r.target in targets
    requires forall id :: id in r.ids ==> Healthy(rows, records, id, r.target)
    ensures Holds(rows, records[k := r], targets, k + 1)
  {
    var more := records[k := r];
    forall j, t, id | j in records && HoldsRow(records[j], t, id) ensures !HoldsRow(r, t, id) {
      assert Held(records, id, t);
    }
    forall i, t, id | i in more && HoldsRow(more[i], t, id) ensures id in rows && t !in rows[id].sent {
      if i == k {
        assert Healthy(rows, records, id, r.target);
      }
    }
  }

  lemma InsertKeepsCounts(
    rows: map<nat, TraceRow>, records: map<nat, Record>, k: nat, r: Record, origin: map<nat, Origin>,
    targets: set<Target>, written: multiset<Pair>)
    requires Counts(rows, records, origin, targets, written) && k !in records
    requires forall id :: id in r.ids ==> Healthy(rows, records, id, r.target)
    ensures Counts(rows, records[k := r], origin, targets, written)
  {
    HeldAfterInsert(records, k, r);
  }

  /** Record `k` is deleted or resolved, and the other records stay. */
  predicate Released(records: map<nat, Record>, k: nat, after: map<nat, Record>) {
    && k in records && after - {k} == records - {k}
    && (k in after ==> after[k] == Record(records[k].target, {}, Resolved))
  }

  /** Releasing an active record frees exactly its rows. */
  lemma HeldAfterRelease(
    rows: map<nat, TraceRow>, records: map<nat, Record>, targets: set<Target>, nextRecord: nat, k: nat,
    after: map<nat, Record>)
    requires Holds(rows, records, targets, nextRecord) && Released(records, k, after)
    ensures forall id, t :: Held(after, id, t) <==> (Held(records, id, t) && !HoldsRow(records[k], t, id))
  {
    forall id, t ensures Held(after, id, t) <==> (Held(records, id, t) && !HoldsRow(records[k], t, id)) {
      if Held(after, id, t) {
        var j :| j in after && HoldsRow(after[j], t, id);
        assert j in after - {k} && (after - {k})[j] == (records - {k})[j];
        assert HoldsRow(records[j], t, id);
      }
      if Held(records, id, t) && !HoldsRow(records[k], t, id) {
        var j :| j in records && HoldsRow(records[j], t, id);
        assert j in records - {k} && (after - {k})[j] == (records - {k})[j];
        assert HoldsRow(after[j], t, id);
      }
    }
  }

  /** What an active record after a release held before it, too. */
  lemma StillHolding(records: map<nat, Record>, k: nat, after: map<nat, Record>, i: nat, t: Target, id: nat)
    requires Released(records, k, after) && i in after && HoldsRow(after[i], t, id)
    ensures i != k && i in records && HoldsRow(records[i], t, id)
  {
    assert i in after - {k} && (after - {k})[i] == (records - {k})[i];
  }

  lemma SameOthers(records: map<nat, Record>, k: nat, after: map<nat, Record>, i: nat)
    requires Released(records, k, after) && i in after && i != k
    ensures i in records && after[i] == records[i]
  {
    assert i in after - {k} && (after - {k})[i] == (records - {k})[i];
  }

  lemma ReleaseKeepsHolds(
    rows: map<nat, TraceRow>, records: map<nat, Record>, targets: set<Target>, nextRecord: nat, k: nat,
    after: map<nat, Record>)
    requires Holds(rows, records, targets, nextRecord) && Released(records, k, after)
    ensures Holds(rows, after, targets, nextRecord)
  {
    forall i | i in after && i != k ensures i in records && after[i] == records[i] {
      SameOthers(records, k, after, i);
    }
    forall i, t, id | i in after && HoldsRow(after[i], t, id) ensures i in records && HoldsRow(records[i], t, id) {
      StillHolding(records, k, after, i, t, id);
    }
  }

  lemma ReleaseKeepsCounts(
    rows: map<nat, TraceRow>, records: map<nat, Record>, origin: map<nat, Origin>, targets: set<Target>,
    written: multiset<Pair>, nextRecord: nat, k: nat, after: map<nat, Record>)
    requires Holds(rows, records, targets, nextRecord) && Counts(rows, records, origin, targets, written)
    requires Released(records, k, after)
    requires forall id :: id in records[k].ids ==> Pair(id, records[k].target) !in written
    ensures Counts(rows, after, origin, targets, written)
  {
    HeldAfterRelease(rows, records, targets, nextRecord, k, after);
    forall i | i in after && i != k ensures i in records && after[i] == records[i] {
      SameOthers(records, k, after, i);
    }
  }

  /** Changing what is known of an active record leaves its rows held. */
  lemma HeldAfterRestate(records: map<nat, Record>, k: nat, state: RecordState)
    requires k in records && Active(records[k]) && Active(records[k].(state := state))
    ensures forall id, t :: Held(records[k := records[k].(state := state)], id, t) <==> Held(records, id, t)
  {
    var more := records[k := records[k].(state := state)];
    forall id, t ensures Held(more, id, t) <==> Held(records, id, t) {
      if Held(records, id, t) {
        var j :| j in records && HoldsRow(records[j], t, id);
        assert j in more && HoldsRow(more[j], t, id);
      }
      if Held(more, id, t) {
        var j :| j in more && HoldsRow(more[j], t, id);
        assert j in records && HoldsRow(records[j], t, id);
      }
    }
  }

  lemma RestateKeeps(
    rows: map<nat, TraceRow>, records: map<nat, Record>, origin: map<nat, Origin>, targets: set<Target>,
    written: multiset<Pair>, nextRecord: nat, k: nat, state: RecordState)
    requires Holds(rows, records, targets, nextRecord) && Counts(rows, records, origin, targets, written)
    requires k in records && Active(records[k]) && Active(records[k].(state := state))
    requires state == Blocked(true) ==> forall id :: id in records[k].ids ==> Pair(id, records[k].target) !in written
    ensures
      var more := records[k := records[k].(state := state)];
      Holds(rows, more, targets, nextRecord) && Counts(rows, more, origin, targets, written)
  {
    var more := records[k := records[k].(state := state)];
    HeldAfterRestate(records, k, state);
    forall i, t, id | i in more && HoldsRow(more[i], t, id) ensures HoldsRow(records[i], t, id) {}
  }

  // ---- marking, writing and deleting ----

  lemma ConfirmKeepsHolds(
    rows: map<nat, TraceRow>, records: map<nat, Record>, targets: set<Target>, nextRecord: nat, k: nat,
    after: map<nat, Record>)
    requires Holds(rows, records, targets, nextRecord) && Released(records, k, after) && Active(records[k])
    ensures Holds(Marked(rows, records[k].ids, records[k].target), after, targets, nextRecord)
  {
    var marked := Marked(rows, records[k].ids, records[k].target);
    ReleaseKeepsHolds(rows, records, targets, nextRecord, k, after);
    forall i, t, id | i in after && HoldsRow(after[i], t, id) ensures id in marked && t !in marked[id].sent {
      StillHolding(records, k, after, i, t, id);
      assert HoldsRow(records[i], t, id) && !HoldsRow(records[k], t, id);
    }
  }

  /** Rows that are healthy are in no record, so ending one leaves them healthy. */
  lemma OthersStayHealthy(
    rows: map<nat, TraceRow>, records: map<nat, Record>, targets: set<Target>, nextRecord: nat, k: nat,
    after: map<nat, Record>)
    requires Holds(rows, records, targets, nextRecord) && Released(records, k, after) && Active(records[k])
    ensures forall id, t {:trigger Healthy(Marked(rows, records[k].ids, records[k].target), after, id, t)} :: Healthy(rows, records, id, t) ==>
      Healthy(Marked(rows, records[k].ids, records[k].target), after, id, t)
  {
    HeldAfterRelease(rows, records, targets, nextRecord, k, after);
    forall id, t | Healthy(rows, records, id, t) ensures !HoldsRow(records[k], t, id) {
      assert !Held(records, id, t);
    }
  }

  lemma ConfirmKeepsCounts(
    rows: map<nat, TraceRow>, records: map<nat, Record>, origin: map<nat, Origin>, targets: set<Target>,
    written: multiset<Pair>, nextRecord: nat, k: nat, after: map<nat, Record>)
    requires Holds(rows, records, targets, nextRecord) && Counts(rows, records, origin, targets, written)
    requires Released(records, k, after) && Active(records[k])
    requires forall id :: id in records[k].ids ==> Pair(id, records[k].target) in written
    ensures Counts(Marked(rows, records[k].ids, records[k].target), after, origin, targets, written)
  {
    HeldAfterRelease(rows, records, targets, nextRecord, k, after);
    var marked := Marked(rows, records[k].ids, records[k].target);
    forall id, t | Healthy(marked, after, id, t) ensures Healthy(rows, records, id, t) {}
    forall i | i in after && i != k ensures i in records && after[i] == records[i] {
      SameOthers(records, k, after, i);
    }
  }

  lemma MarkKeepsStores(
    rows: map<nat, TraceRow>, chunks: map<nat, seq<Units>>, origin: map<nat, Origin>, keys: set<string>,
    nextRow: nat, ids: set<nat>, target: Target)
    requires Stores(rows, chunks, origin, keys, nextRow)
    ensures Stores(Marked(rows, ids, target), chunks, origin, keys, nextRow)
  {
    forall id | id in rows ensures Stored(Marked(rows, ids, target), chunks, id) == Stored(rows, chunks, id) {}
  }

  lemma ConfirmKeeps(
    rows: map<nat, TraceRow>, chunks: map<nat, seq<Units>>, records: map<nat, Record>, origin: map<nat, Origin>,
    keys: set<string>, targets: set<Target>, written: multiset<Pair>, nextRow: nat, nextRecord: nat, k: nat,
    after: map<nat, Record>)
    requires Stores(rows, chunks, origin, keys, nextRow) && Holds(rows, records, targets, nextRecord)
    requires Counts(rows, records, origin, targets, written) && Released(records, k, after) && Active(records[k])
    requires forall id :: id in records[k].ids ==> Pair(id, records[k].target) in written
    ensures
      var marked := Marked(rows, records[k].ids, records[k].target);
      && Stores(marked, chunks, origin, keys, nextRow) && Holds(marked, after, targets, nextRecord)
      && Counts(marked, after, origin, targets, written)
  {
    ConfirmKeepsHolds(rows, records, targets, nextRecord, k, after);
    ConfirmKeepsCounts(rows, records, origin, targets, written, nextRecord, k, after);
    MarkKeepsStores(rows, chunks, origin, keys, nextRow, records[k].ids, records[k].target);
  }

  lemma WriteKeepsCounts(
    rows: map<nat, TraceRow>, records: map<nat, Record>, origin: map<nat, Origin>, targets: set<Target>,
    written: multiset<Pair>, nextRecord: nat, k: nat, landed: set<nat>)
    requires Holds(rows, records, targets, nextRecord) && Counts(rows, records, origin, targets, written)
    requires forall id :: id in rows ==> id in origin
    requires k in records && records[k].state.InFlight? && landed <= records[k].ids
    requires forall id :: id in records[k].ids ==> Pair(id, records[k].target) !in written
    ensures Counts(rows, records, origin, targets, written + PairsOf(landed, records[k].target))
    ensures forall id :: Pair(id, records[k].target) in written + PairsOf(landed, records[k].target) <==>
      Pair(id, records[k].target) in written || id in landed
  {
    var t := records[k].target;
    forall id | id in landed ensures id in rows && t !in rows[id].sent && Held(records, id, t) {
      assert HoldsRow(records[k], t, id);
    }
    forall j, id | j in records && records[j].state == Blocked(true) && id in records[j].ids && records[j].target == t
      ensures id !in landed
    {
      if id in landed {
        assert HoldsRow(records[j], t, id) && HoldsRow(records[k], t, id);
      }
    }
  }

  lemma DeleteKeeps(
    rows: map<nat, TraceRow>, chunks: map<nat, seq<Units>>, records: map<nat, Record>, origin: map<nat, Origin>,
    keys: set<string>, targets: set<Target>, written: multiset<Pair>, nextRow: nat, nextRecord: nat,
    gone: set<nat>)
    requires Stores(rows, chunks, origin, keys, nextRow) && Holds(rows, records, targets, nextRecord)
    requires Counts(rows, records, origin, targets, written)
    requires forall id :: id in gone ==> id in rows && forall t :: t in targets ==> t in rows[id].sent
    ensures Stores(rows - gone, chunks - gone, origin, keys, nextRow)
    ensures Holds(rows - gone, records, targets, nextRecord)
    ensures Counts(rows - gone, records, origin, targets, written)
  {
    forall id | id in rows - gone ensures Stored(rows - gone, chunks - gone, id) == Stored(rows, chunks, id) {}
    forall id, t | Healthy(rows - gone, records, id, t) ensures Healthy(rows, records, id, t) {}
  }
}
