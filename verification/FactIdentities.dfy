/**
 * Normalising the facts of one delivery: rows with one natural identity collapse to one row, or the
 * delivery is refused because they disagree. Two rows have the same canonical JSON exactly when they
 * are the same value here, as objects are maps.
 */
module FactIdentities {
  import opened Contract
  import opened FactChunker

  datatype Json =
    | Null | Bool(flag: bool) | Num(number: real) | Str(text: string) | Arr(items: seq<Json>)
    | Obj(fields: map<string, Json>)

  /** A field that only feeds the identity of rows without a source id. */
  datatype PositionRule = PositionRule(field: string, sourceId: string)

  datatype IdentityRule = IdentityRule(identity: string, position: Option<PositionRule>)

  datatype Identity = Identity(session: string, pk: string)

  datatype Conflict = Conflict(vendorSessionId: string, identityPk: string)

  function RuleOf(c: Category): IdentityRule {
    match c
    case Messages => IdentityRule("message_pk", Some(PositionRule("turn_index", "vendor_message_id")))
    case ToolEvents => IdentityRule("tool_use_pk", Some(PositionRule("source_block_index", "tool_use_id")))
    case FileEvents => IdentityRule("file_event_pk", None)
    case CapabilitySnapshots =>
      IdentityRule("capability_snapshot_pk", Some(PositionRule("stable_turn_index", "source_snapshot_id")))
    case PullRequestLinks =>
      IdentityRule("pull_request_link_pk", Some(PositionRule("stable_turn_index", "source_event_id")))
    case ReviewUnitAttributions => IdentityRule("review_unit_attribution_pk", None)
  }

  /** The position is not the source id itself. */
  predicate Proper(rule: IdentityRule) {
    rule.position.Some? ==> rule.position.value.field != rule.position.value.sourceId
  }

  lemma RulesAreProper(c: Category)
    ensures Proper(RuleOf(c))
  {}

  /** The identity of a row, unless it is no object or lacks one of the two keys. */
  function KeyOf(row: Json, rule: IdentityRule): Option<Identity> {
    if row.Obj? && TextOf(row, "session_pk").Some? && TextOf(row, rule.identity).Some?
    then Some(Identity(TextOf(row, "session_pk").value, TextOf(row, rule.identity).value))
    else None
  }

  function TextOf(row: Json, field: string): Option<string>
    requires row.Obj?
  {
    if field in row.fields && row.fields[field].Str? then Some(row.fields[field].text) else None
  }

  predicate ExcludesPosition(row: Json, rule: IdentityRule)
    requires row.Obj?
  {
    rule.position.Some? && rule.position.value.sourceId in row.fields && !row.fields[rule.position.value.sourceId].Null?
  }

  /** What rows of one identity must agree on. */
  function Comparable(row: Json, rule: IdentityRule): Json
    requires row.Obj?
  {
    if ExcludesPosition(row, rule) then Obj(row.fields - {rule.position.value.field}) else row
  }

  /** A numeric position; rows without one come last. */
  function PositionOf(row: Json, rule: IdentityRule): Option<real>
    requires row.Obj?
  {
    if rule.position.Some? && rule.position.value.field in row.fields && row.fields[rule.position.value.field].Num?
    then Some(row.fields[rule.position.value.field].number) else None
  }

  predicate Before(a: Option<real>, b: Option<real>) {
    a.Some? && (b.None? || a.value < b.value)
  }

  // ---- what the loop keeps ----

  predicate HasKey(row: Json, rule: IdentityRule, key: Identity) {
    KeyOf(row, rule) == Some(key)
  }

  /** The row kept for an identity: of those that agree with its first row, the first with the lowest position. */
  function Best(rows: seq<Json>, rule: IdentityRule, key: Identity): (best: Option<Json>)
    ensures best.Some? ==> HasKey(best.value, rule, key)
  {
    if rows == [] then None
    else
      var before, last := Best(rows[..|rows| - 1], rule, key), rows[|rows| - 1];
      if !HasKey(last, rule, key) then before
      else if before.None? || Replaces(last, before.value, rule) then Some(last)
      else before
  }

  predicate Replaces(row: Json, previous: Json, rule: IdentityRule)
    requires row.Obj? && previous.Obj?
  {
    Comparable(previous, rule) == Comparable(row, rule) && Before(PositionOf(row, rule), PositionOf(previous, rule))
  }

  predicate Opens(rows: seq<Json>, row: Json, rule: IdentityRule) {
    KeyOf(row, rule).None? || Best(rows, rule, KeyOf(row, rule).value).None?
  }

  /** The rows that are kept under their own place: those without identity and the first of each identity. */
  function Firsts(rows: seq<Json>, rule: IdentityRule): seq<Json> {
    if rows == [] then []
    else
      var init, last := rows[..|rows| - 1], rows[|rows| - 1];
      Firsts(init, rule) + if Opens(init, last, rule) then [last] else []
  }

  function Kept(rows: seq<Json>, rule: IdentityRule, first: Json): Json {
    if KeyOf(first, rule).None? then first
    else if Best(rows, rule, KeyOf(first, rule).value).None? then first
    else Best(rows, rule, KeyOf(first, rule).value).value
  }

  /** The normalised rows: at the place of each first row, the row kept for its identity. */
  function Normal(rows: seq<Json>, rule: IdentityRule): seq<Json> {
    var firsts := Firsts(rows, rule);
    seq(|firsts|, i requires 0 <= i < |firsts| => Kept(rows, rule, firsts[i]))
  }

  function VendorSession(row: Json): string
    requires row.Obj?
  {
    if TextOf(row, "vendor_session_id").Some? then TextOf(row, "vendor_session_id").value else ""
  }

  /** The rows that disagree with the first row of their identity. */
  function ConflictsOf(rows: seq<Json>, rule: IdentityRule): seq<Conflict> {
    if rows == [] then []
    else
      var init, last := rows[..|rows| - 1], rows[|rows| - 1];
      if Opens(init, last, rule) then ConflictsOf(init, rule)
      else
        var previous := Best(init, rule, KeyOf(last, rule).value).value;
        if Comparable(previous, rule) == Comparable(last, rule) then ConflictsOf(init, rule)
        else ConflictsOf(init, rule) + [Conflict(VendorSession(last), KeyOf(last, rule).value.pk)]
  }

  // ---- one row more ----

  lemma BestAppend(rows: seq<Json>, row: Json, rule: IdentityRule, key: Identity)
    ensures Best(rows + [row], rule, key) ==
      if !HasKey(row, rule, key) then Best(rows, rule, key)
      else if Best(rows, rule, key).None? || Replaces(row, Best(rows, rule, key).value, rule) then Some(row)
      else Best(rows, rule, key)
  {
    assert (rows + [row])[..|rows|] == rows;
  }

  lemma FirstsAppend(rows: seq<Json>, row: Json, rule: IdentityRule)
    ensures Firsts(rows + [row], rule) == Firsts(rows, rule) + if Opens(rows, row, rule) then [row] else []
  {
    assert (rows + [row])[..|rows|] == rows;
  }

  /** Each identity seen has one first row, and every first row has an identity seen. */
  ghost predicate Placed(rows: seq<Json>, rule: IdentityRule, firsts: seq<Json>) {
    && (forall i :: 0 <= i < |firsts| && KeyOf(firsts[i], rule).Some? ==>
          Best(rows, rule, KeyOf(firsts[i], rule).value).Some?)
    && (forall i, j :: 0 <= i < j < |firsts| && KeyOf(firsts[i], rule).Some? ==>
          KeyOf(firsts[i], rule) != KeyOf(firsts[j], rule))
  }

  lemma {:induction false} FirstsArePlaced(rows: seq<Json>, rule: IdentityRule)
    ensures Placed(rows, rule, Firsts(rows, rule))
  {
    if rows != [] {
      var init, last := rows[..|rows| - 1], rows[|rows| - 1];
      assert rows == init + [last];
      FirstsArePlaced(init, rule);
      FirstsAppend(init, last, rule);
      forall i | 0 <= i < |Firsts(rows, rule)| && KeyOf(Firsts(rows, rule)[i], rule).Some?
        ensures Best(rows, rule, KeyOf(Firsts(rows, rule)[i], rule).value).Some?
      {
        BestAppend(init, last, rule, KeyOf(Firsts(rows, rule)[i], rule).value);
      }
    }
  }

  lemma KeptAppend(rows: seq<Json>, row: Json, rule: IdentityRule, first: Json)
    requires KeyOf(first, rule).None? || KeyOf(first, rule) != KeyOf(row, rule)
    ensures Kept(rows + [row], rule, first) == Kept(rows, rule, first)
  {
    if KeyOf(first, rule).Some? {
      BestAppend(rows, row, rule, KeyOf(first, rule).value);
    }
  }

  /** A row without identity, or with a new one, is appended. */
  lemma NormalOpens(rows: seq<Json>, row: Json, rule: IdentityRule)
    requires Opens(rows, row, rule)
    ensures Normal(rows + [row], rule) == Normal(rows, rule) + [row]
  {
    FirstsAppend(rows, row, rule);
    FirstsArePlaced(rows, rule);
    var firsts := Firsts(rows, rule);
    forall i | 0 <= i < |firsts| ensures Kept(rows + [row], rule, firsts[i]) == Kept(rows, rule, firsts[i]) {
      KeptAppend(rows, row, rule, firsts[i]);
    }
    if KeyOf(row, rule).Some? {
      BestAppend(rows, row, rule, KeyOf(row, rule).value);
    }
  }

  /** A row of an identity seen before can only change the row kept for it. */
  lemma NormalMeets(rows: seq<Json>, row: Json, rule: IdentityRule, slot: nat)
    requires !Opens(rows, row, rule) && slot < |Firsts(rows, rule)|
    requires KeyOf(Firsts(rows, rule)[slot], rule) == KeyOf(row, rule)
    ensures Normal(rows, rule)[slot] == Best(rows, rule, KeyOf(row, rule).value).value
    ensures Normal(rows + [row], rule) ==
      if Replaces(row, Normal(rows, rule)[slot], rule) then Normal(rows, rule)[slot := row] else Normal(rows, rule)
  {
    FirstsAppend(rows, row, rule);
    FirstsArePlaced(rows, rule);
    var firsts := Firsts(rows, rule);
    BestAppend(rows, row, rule, KeyOf(row, rule).value);
    forall i | 0 <= i < |firsts| && i != slot ensures Kept(rows + [row], rule, firsts[i]) == Kept(rows, rule, firsts[i]) {
      KeptAppend(rows, row, rule, firsts[i]);
    }
  }

  // ---- the loop ----

  /** The slot of every identity seen is the place of its first row. */
  ghost predicate Slots(slots: map<Identity, nat>, rows: seq<Json>, rule: IdentityRule) {
    && (forall key :: key in slots <==> Best(rows, rule, key).Some?)
    && (forall key :: key in slots ==>
          slots[key] < |Firsts(rows, rule)| && HasKey(Firsts(rows, rule)[slots[key]], rule, key))
  }

  lemma SlotsAppend(slots: map<Identity, nat>, rows: seq<Json>, row: Json, rule: IdentityRule)
    requires Slots(slots, rows, rule)
    ensures
      var more := if KeyOf(row, rule).Some? && Opens(rows, row, rule)
        then slots[KeyOf(row, rule).value := |Firsts(rows, rule)|] else slots;
      Slots(more, rows + [row], rule)
  {
    FirstsAppend(rows, row, rule);
    forall key ensures Best(rows + [row], rule, key).Some? <==> Best(rows, rule, key).Some? || HasKey(row, rule, key) {
      BestAppend(rows, row, rule, key);
    }
  }

  lemma ConflictsAppend(rows: seq<Json>, row: Json, rule: IdentityRule)
    ensures Opens(rows, row, rule) ==> ConflictsOf(rows + [row], rule) == ConflictsOf(rows, rule)
    ensures !Opens(rows, row, rule) ==>
      ConflictsOf(rows + [row], rule) ==
      ConflictsOf(rows, rule) +
      if Comparable(Best(rows, rule, KeyOf(row, rule).value).value, rule) == Comparable(row, rule) then []
      else [Conflict(VendorSession(row), KeyOf(row, rule).value.pk)]
  {
    assert (rows + [row])[..|rows|] == rows;
  }

  /** Collapses the rows of each identity in one pass. */
  method CollapseFacts(rows: seq<Json>, rule: IdentityRule) returns (accepted: seq<Json>, conflicts: seq<Conflict>)
    ensures accepted == Normal(rows, rule) && conflicts == ConflictsOf(rows, rule)
  {
    accepted, conflicts := [], [];
    var slots: map<Identity, nat> := map[];
    for i := 0 to |rows|
      invariant accepted == Normal(rows[..i], rule) && conflicts == ConflictsOf(rows[..i], rule)
      invariant Slots(slots, rows[..i], rule)
    {
      var row := rows[i];
      assert rows[..i + 1] == rows[..i] + [row];
      SlotsAppend(slots, rows[..i], row, rule);
      ConflictsAppend(rows[..i], row, rule);
      var key := KeyOf(row, rule);
      if key.None? || key.value !in slots {
        NormalOpens(rows[..i], row, rule);
        if key.Some? {
          slots := slots[key.value := |accepted|];
        }
        accepted := accepted + [row];
      } else {
        var slot := slots[key.value];
        NormalMeets(rows[..i], row, rule, slot);
        var previous := accepted[slot];
        if Comparable(previous, rule) != Comparable(row, rule) {
          conflicts := conflicts + [Conflict(VendorSession(row), key.value.pk)];
        } else if Before(PositionOf(row, rule), PositionOf(previous, rule)) {
          accepted := accepted[slot := row];
        }
      }
    }
    assert rows[..|rows|] == rows;
  }

  // ---- what is kept ----

  predicate SameIdentity(a: Json, b: Json, rule: IdentityRule) {
    KeyOf(a, rule).Some? && KeyOf(a, rule) == KeyOf(b, rule)
  }

  /** Rows of one identity differ at most by a position that does not count. */
  ghost predicate Agree(rows: seq<Json>, rule: IdentityRule) {
    forall a, b :: a in rows && b in rows && SameIdentity(a, b, rule) ==> Comparable(a, rule) == Comparable(b, rule)
  }

  lemma {:induction false} BestIsFound(rows: seq<Json>, rule: IdentityRule, key: Identity)
    ensures Best(rows, rule, key).Some? ==> Best(rows, rule, key).value in rows
    ensures Best(rows, rule, key).None? ==> forall row :: row in rows ==> !HasKey(row, rule, key)
  {
    if rows != [] {
      var init, last := rows[..|rows| - 1], rows[|rows| - 1];
      assert rows == init + [last];
      BestIsFound(init, rule, key);
    }
  }

  /** Among rows that agree, the row kept has the lowest position. */
  lemma {:induction false} BestIsLowest(rows: seq<Json>, rule: IdentityRule, key: Identity, row: Json)
    requires Agree(rows, rule) && row in rows && HasKey(row, rule, key)
    ensures Best(rows, rule, key).Some? && Best(rows, rule, key).value in rows
    ensures Comparable(row, rule) == Comparable(Best(rows, rule, key).value, rule)
    ensures !Before(PositionOf(row, rule), PositionOf(Best(rows, rule, key).value, rule))
  {
    var init, last := rows[..|rows| - 1], rows[|rows| - 1];
    assert rows == init + [last];
    BestIsFound(rows, rule, key);
    BestIsFound(init, rule, key);
    BestAppend(init, last, rule, key);
    if row in init {
      BestIsLowest(init, rule, key, row);
    }
  }

  lemma AgreeAppend(rows: seq<Json>, row: Json, rule: IdentityRule)
    requires Agree(rows, rule)
    ensures Agree(rows + [row], rule) <==>
      (Opens(rows, row, rule) || Comparable(Best(rows, rule, KeyOf(row, rule).value).value, rule) == Comparable(row, rule))
  {
    if KeyOf(row, rule).Some? {
      var key := KeyOf(row, rule).value;
      BestIsFound(rows, rule, key);
      if Best(rows, rule, key).Some? {
        assert Best(rows, rule, key).value in rows + [row] && row in rows + [row];
        forall other | other in rows && HasKey(other, rule, key)
          ensures Comparable(other, rule) == Comparable(Best(rows, rule, key).value, rule)
        {
          BestIsLowest(rows, rule, key, other);
        }
      }
    }
  }

  /** There is a conflict exactly when two rows of one identity disagree, whatever their order. */
  lemma {:induction false} ConflictFreeIffAgree(rows: seq<Json>, rule: IdentityRule)
    ensures ConflictsOf(rows, rule) == [] <==> Agree(rows, rule)
  {
    if rows != [] {
      var init, last := rows[..|rows| - 1], rows[|rows| - 1];
      assert rows == init + [last];
      ConflictFreeIffAgree(init, rule);
      ConflictsAppend(init, last, rule);
      if Agree(init, rule) {
        AgreeAppend(init, last, rule);
      } else {
        var a, b :| a in init && b in init && SameIdentity(a, b, rule) && Comparable(a, rule) != Comparable(b, rule);
        assert a in rows && b in rows;
      }
    }
  }

  lemma {:induction false} SlotExists(rows: seq<Json>, rule: IdentityRule, key: Identity) returns (slot: nat)
    requires Best(rows, rule, key).Some?
    ensures slot < |Firsts(rows, rule)| && HasKey(Firsts(rows, rule)[slot], rule, key)
  {
    var init, last := rows[..|rows| - 1], rows[|rows| - 1];
    assert rows == init + [last];
    BestAppend(init, last, rule, key);
    FirstsAppend(init, last, rule);
    if Best(init, rule, key).Some? {
      slot := SlotExists(init, rule, key);
    } else {
      slot := |Firsts(init, rule)|;
    }
  }

  /** How often a row is in the result: as before without an identity, else once if it is the one kept. */
  function CountOf(rows: seq<Json>, rule: IdentityRule, row: Json): nat {
    if KeyOf(row, rule).None? then multiset(rows)[row]
    else if Best(rows, rule, KeyOf(row, rule).value) == Some(row) then 1
    else 0
  }

  lemma {:induction false} NormalCount(rows: seq<Json>, rule: IdentityRule, row: Json)
    ensures multiset(Normal(rows, rule))[row] == CountOf(rows, rule, row)
  {
    if rows != [] {
      var init, last := rows[..|rows| - 1], rows[|rows| - 1];
      assert rows == init + [last];
      NormalCount(init, rule, row);
      NormalCount(init, rule, last);
      if KeyOf(row, rule).Some? {
        BestAppend(init, last, rule, KeyOf(row, rule).value);
      }
      if Opens(init, last, rule) {
        NormalOpens(init, last, rule);
      } else {
        var slot := SlotExists(init, rule, KeyOf(last, rule).value);
        NormalMeets(init, last, rule, slot);
        NormalCount(init, rule, Normal(init, rule)[slot]);
      }
    }
  }

  /**
   * Without a conflict, each identity keeps exactly one row, one of its own with the lowest position;
   * and rows without an identity stay.
   */
  lemma OneRowPerIdentity(rows: seq<Json>, rule: IdentityRule, row: Json)
    requires Agree(rows, rule) && row in rows
    ensures KeyOf(row, rule).None? ==> multiset(Normal(rows, rule))[row] == multiset(rows)[row]
    ensures KeyOf(row, rule).Some? ==> exists kept ::
      (kept in rows && kept in Normal(rows, rule) && SameIdentity(row, kept, rule) &&
       Comparable(row, rule) == Comparable(kept, rule) && !Before(PositionOf(row, rule), PositionOf(kept, rule)) &&
       forall other :: SameIdentity(row, other, rule) ==>
         multiset(Normal(rows, rule))[other] == if other == kept then 1 else 0)
  {
    NormalCount(rows, rule, row);
    if KeyOf(row, rule).Some? {
      var key := KeyOf(row, rule).value;
      BestIsLowest(rows, rule, key, row);
      var kept := Best(rows, rule, key).value;
      forall other | SameIdentity(row, other, rule)
        ensures multiset(Normal(rows, rule))[other] == if other == kept then 1 else 0
      {
        NormalCount(rows, rule, other);
      }
      assert multiset(Normal(rows, rule))[kept] == 1;
    }
  }

  /** Nothing is invented: what is kept was there. */
  lemma KeptRowsAreRows(rows: seq<Json>, rule: IdentityRule, row: Json)
    requires row in Normal(rows, rule)
    ensures row in rows
  {
    NormalCount(rows, rule, row);
    if KeyOf(row, rule).Some? {
      BestIsFound(rows, rule, KeyOf(row, rule).value);
    }
  }

  // ---- once is enough ----

  ghost predicate Single(rows: seq<Json>, rule: IdentityRule) {
    forall i, j :: 0 <= i < j < |rows| ==> !SameIdentity(rows[i], rows[j], rule)
  }

  lemma {:induction false} SingleIsNormal(rows: seq<Json>, rule: IdentityRule)
    requires Single(rows, rule)
    ensures Normal(rows, rule) == rows
  {
    if rows != [] {
      var init, last := rows[..|rows| - 1], rows[|rows| - 1];
      assert rows == init + [last];
      SingleIsNormal(init, rule);
      if KeyOf(last, rule).Some? {
        forall row | row in init ensures !HasKey(row, rule, KeyOf(last, rule).value) {
          var k :| 0 <= k < |init| && init[k] == row;
          assert !SameIdentity(rows[k], rows[|init|], rule);
        }
        BestIsFound(init, rule, KeyOf(last, rule).value);
      }
      NormalOpens(init, last, rule);
    }
  }

  lemma NormalIsSingle(rows: seq<Json>, rule: IdentityRule)
    ensures Single(Normal(rows, rule), rule)
  {
    FirstsArePlaced(rows, rule);
    var firsts := Firsts(rows, rule);
    forall i | 0 <= i < |firsts| ensures KeyOf(Kept(rows, rule, firsts[i]), rule) == KeyOf(firsts[i], rule) {}
  }

  /** Normalising normalised rows changes nothing and finds no conflict. */
  lemma NormalisingTwice(rows: seq<Json>, rule: IdentityRule)
    ensures Normal(Normal(rows, rule), rule) == Normal(rows, rule)
    ensures ConflictsOf(Normal(rows, rule), rule) == []
  {
    NormalIsSingle(rows, rule);
    SingleIsNormal(Normal(rows, rule), rule);
    ConflictFreeIffAgree(Normal(rows, rule), rule);
  }

  // ---- whether the order of the rows matters ----

  predicate Permuted(rows: seq<Json>, other: seq<Json>) {
    multiset(rows) == multiset(other)
  }

  /** No row of this row's identity has a numeric position. */
  ghost predicate Unplaced(rows: seq<Json>, rule: IdentityRule, row: Json) {
    forall other :: other in rows && SameIdentity(row, other, rule) ==> PositionOf(other, rule).None?
  }

  /** Two different rows of one identity, and no numeric position to choose by. */
  ghost predicate Tied(rows: seq<Json>, rule: IdentityRule) {
    exists a, b :: a in rows && b in rows && a != b && SameIdentity(a, b, rule) && Unplaced(rows, rule, a)
  }

  lemma PermutedRows(rows: seq<Json>, other: seq<Json>)
    requires Permuted(rows, other)
    ensures forall row :: row in rows <==> row in other
  {
    forall row ensures row in rows <==> row in other {
      assert row in rows <==> row in multiset(rows);
      assert row in other <==> row in multiset(other);
    }
  }

  /** Agreement does not depend on the order. */
  lemma AgreementIsOrderFree(rows: seq<Json>, other: seq<Json>, rule: IdentityRule)
    requires Permuted(rows, other)
    ensures ConflictsOf(rows, rule) == [] <==> ConflictsOf(other, rule) == []
  {
    PermutedRows(rows, other);
    ConflictFreeIffAgree(rows, rule);
    ConflictFreeIffAgree(other, rule);
  }

  /** Rows of one identity that agree and share a numeric position are the same row. */
  lemma SamePlaceSameRow(a: Json, b: Json, rule: IdentityRule)
    requires Proper(rule) && SameIdentity(a, b, rule) && Comparable(a, rule) == Comparable(b, rule)
    requires PositionOf(a, rule).Some? && PositionOf(a, rule) == PositionOf(b, rule)
    ensures a == b
  {
    var field, source := rule.position.value.field, rule.position.value.sourceId;
    SourceDecides(a, b, rule);
    if ExcludesPosition(a, rule) {
      forall f ensures f in a.fields <==> f in b.fields {
        assert f in a.fields - {field} <==> f in b.fields - {field};
      }
      forall f | f in a.fields ensures a.fields[f] == b.fields[f] {
        if f != field {
          assert (a.fields - {field})[f] == (b.fields - {field})[f];
        }
      }
      assert a.fields == b.fields;
    }
  }

  lemma SourceDecides(a: Json, b: Json, rule: IdentityRule)
    requires Proper(rule) && a.Obj? && b.Obj? && Comparable(a, rule) == Comparable(b, rule)
    ensures ExcludesPosition(a, rule) <==> ExcludesPosition(b, rule)
  {
    if rule.position.Some? {
      var field, source := rule.position.value.field, rule.position.value.sourceId;
      assert source in a.fields <==> source in Comparable(a, rule).fields;
      assert source in b.fields <==> source in Comparable(b, rule).fields;
      assert source in a.fields ==> a.fields[source] == Comparable(a, rule).fields[source];
      assert source in b.fields ==> b.fields[source] == Comparable(b, rule).fields[source];
    }
  }

  lemma SameBest(rows: seq<Json>, other: seq<Json>, rule: IdentityRule, key: Identity)
    requires Proper(rule) && Permuted(rows, other) && Agree(rows, rule) && !Tied(rows, rule)
    ensures Best(rows, rule, key) == Best(other, rule, key)
  {
    PermutedRows(rows, other);
    BestIsFound(rows, rule, key);
    BestIsFound(other, rule, key);
    if Best(rows, rule, key).Some? {
      var a, b := Best(rows, rule, key).value, Best(other, rule, key).value;
      BestIsLowest(rows, rule, key, b);
      BestIsLowest(other, rule, key, a);
      if PositionOf(a, rule).Some? {
        SamePlaceSameRow(a, b, rule);
      } else {
        forall c | c in rows && SameIdentity(a, c, rule) ensures PositionOf(c, rule).None? {
          BestIsLowest(rows, rule, key, c);
        }
        assert Unplaced(rows, rule, a);
      }
    }
  }

  predicate SameResult(rows: seq<Json>, other: seq<Json>, rule: IdentityRule) {
    multiset(Normal(rows, rule)) == multiset(Normal(other, rule))
  }

  /** Without a tie, the rows kept do not depend on the order. */
  lemma OrderDoesNotMatter(rows: seq<Json>, other: seq<Json>, rule: IdentityRule)
    requires Proper(rule) && Permuted(rows, other) && Agree(rows, rule) && !Tied(rows, rule)
    ensures SameResult(rows, other, rule)
  {
    forall row ensures multiset(Normal(rows, rule))[row] == multiset(Normal(other, rule))[row] {
      NormalCount(rows, rule, row);
      NormalCount(other, rule, row);
      if KeyOf(row, rule).Some? {
        SameBest(rows, other, rule, KeyOf(row, rule).value);
      }
    }
  }

  lemma {:induction false} FirstUnplacedStays(rows: seq<Json>, rule: IdentityRule, key: Identity)
    requires rows != [] && HasKey(rows[0], rule, key)
    requires forall other :: other in rows && HasKey(other, rule, key) ==> PositionOf(other, rule).None?
    ensures Best(rows, rule, key) == Some(rows[0])
  {
    var init, last := rows[..|rows| - 1], rows[|rows| - 1];
    assert rows == init + [last];
    BestAppend(init, last, rule, key);
    if init != [] {
      FirstUnplacedStays(init, rule, key);
    }
  }

  lemma MoveToFront(rows: seq<Json>, row: Json) returns (other: seq<Json>)
    requires row in rows
    ensures Permuted(rows, other) && other != [] && other[0] == row
  {
    var k :| 0 <= k < |rows| && rows[k] == row;
    other := [row] + (rows[..k] + rows[k + 1..]);
    assert rows == rows[..k] + [row] + rows[k + 1..];
  }

  /** With its row in front, a tie is decided for that row. */
  lemma TieGoesToFront(rows: seq<Json>, rule: IdentityRule, row: Json) returns (other: seq<Json>)
    requires row in rows && KeyOf(row, rule).Some? && Unplaced(rows, rule, row)
    ensures Permuted(rows, other) && Best(other, rule, KeyOf(row, rule).value) == Some(row)
  {
    other := MoveToFront(rows, row);
    PermutedRows(rows, other);
    FirstUnplacedStays(other, rule, KeyOf(row, rule).value);
  }

  /** With a tie, the order decides which row is kept. */
  lemma TiesDependOnOrder(rows: seq<Json>, rule: IdentityRule) returns (x: seq<Json>, y: seq<Json>)
    requires Tied(rows, rule)
    ensures Permuted(rows, x) && Permuted(rows, y) && !SameResult(x, y, rule)
  {
    var a, b :| a in rows && b in rows && a != b && SameIdentity(a, b, rule) && Unplaced(rows, rule, a);
    assert Unplaced(rows, rule, b);
    x := TieGoesToFront(rows, rule, a);
    y := TieGoesToFront(rows, rule, b);
    NormalCount(x, rule, a);
    NormalCount(y, rule, a);
  }

  /** Rows that agree are kept alike in every order if and only if no identity is tied. */
  lemma OrderFreeIffUntied(rows: seq<Json>, rule: IdentityRule)
    requires Proper(rule) && Agree(rows, rule)
    ensures !Tied(rows, rule) <==> forall other {:trigger Permuted(rows, other)} :: Permuted(rows, other) ==> SameResult(rows, other, rule)
  {
    if Tied(rows, rule) {
      var x, y := TiesDependOnOrder(rows, rule);
      assert !SameResult(rows, x, rule) || !SameResult(rows, y, rule);
    } else {
      forall other | Permuted(rows, other) ensures SameResult(rows, other, rule) {
        OrderDoesNotMatter(rows, other, rule);
      }
    }
  }

  /** The position is numeric wherever it does not feed the identity. */
  ghost predicate Numeric(rows: seq<Json>, rule: IdentityRule) {
    forall row :: row in rows && KeyOf(row, rule).Some? && ExcludesPosition(row, rule) ==> PositionOf(row, rule).Some?
  }

  /** Rows with numeric positions are never tied. */
  lemma NumericRowsAreUntied(rows: seq<Json>, rule: IdentityRule)
    requires Agree(rows, rule)
    requires Numeric(rows, rule)
    ensures !Tied(rows, rule)
  {
    forall a, b | a in rows && b in rows && SameIdentity(a, b, rule) && Unplaced(rows, rule, a) ensures a == b {
      assert SameIdentity(a, a, rule);
      assert Comparable(a, rule) == Comparable(b, rule);
    }
  }

  /** A tie: a missing and a null turn index, of which the first in order is kept. */
  lemma TieExample(a: Json, b: Json)
    requires a == Obj(map["session_pk" := Str("s"), "message_pk" := Str("m"), "vendor_message_id" := Str("v")])
    requires b == Obj(a.fields["turn_index" := Null])
    ensures Agree([a, b], RuleOf(Messages)) && Tied([a, b], RuleOf(Messages))
  {
    var rule := RuleOf(Messages);
    assert a.fields - {"turn_index"} == b.fields - {"turn_index"};
    assert "message_pk"[0] != "turn_index"[0] && "session_pk"[0] != "turn_index"[0];
    assert KeyOf(a, rule) == KeyOf(b, rule) == Some(Identity("s", "m"));
    assert "turn_index" in b.fields && "turn_index" !in a.fields;
    assert Unplaced([a, b], rule, a);
    assert a in [a, b] && b in [a, b];
  }

  // ---- all categories ----

  datatype IdentityError = IdentityError(category: Category, conflicts: seq<Conflict>)

  type Delivery = map<Category, seq<Json>>

  ghost predicate Complete(facts: Delivery) {
    forall c: Category :: c in facts
  }

  ghost predicate AgreeIn(facts: Delivery, c: Category)
    requires Complete(facts)
  {
    Agree(facts[c], RuleOf(c))
  }

  /** The facts of one category are normalised. */
  ghost predicate NormalIn(facts: Delivery, normalized: Delivery, c: Category)
    requires Complete(facts)
  {
    c in normalized && normalized[c] == Normal(facts[c], RuleOf(c))
  }

  /** The error is about the first category whose rows disagree. */
  ghost predicate Reports(facts: Delivery, error: IdentityError)
    requires Complete(facts)
  {
    exists k :: FirstConflict(facts, k, error.category) &&
      error.conflicts == ConflictsOf(facts[error.category], RuleOf(error.category))
  }

  ghost predicate FirstConflict(facts: Delivery, k: int, c: Category)
    requires Complete(facts)
  {
    && 0 <= k < |CATEGORIES| && CATEGORIES[k] == c && !AgreeIn(facts, c)
    && forall i :: 0 <= i < k ==> AgreeIn(facts, CATEGORIES[i])
  }

  /** Normalises every category, or reports the first one with a conflict. */
  method NormalizeAgentFactIdentities(facts: Delivery) returns (r: Result<Delivery, IdentityError>)
    requires Complete(facts)
    ensures r.Ok? <==> forall c: Category :: AgreeIn(facts, c)
    ensures r.Ok? ==> forall c: Category :: NormalIn(facts, r.value, c)
    ensures r.Err? ==> Reports(facts, r.error)
  {
    var normalized: Delivery := map[];
    for i := 0 to |CATEGORIES|
      invariant forall j :: 0 <= j < i ==> AgreeIn(facts, CATEGORIES[j]) && NormalIn(facts, normalized, CATEGORIES[j])
    {
      var c := CATEGORIES[i];
      var accepted, conflicts := CollapseFacts(facts[c], RuleOf(c));
      ConflictFreeIffAgree(facts[c], RuleOf(c));
      if |conflicts| > 0 {
        assert FirstConflict(facts, i, c);
        return Err(IdentityError(c, conflicts));
      }
      normalized := normalized[c := accepted];
    }
    forall c: Category ensures AgreeIn(facts, c) && NormalIn(facts, normalized, c) {
      EveryCategory(c);
    }
    return Ok(normalized);
  }

  /** Two deliveries with the same rows in each category, in any order, and with numeric positions. */
  ghost predicate SameRows(facts: Delivery, other: Delivery) {
    && Complete(facts) && Complete(other)
    && forall c: Category :: Permuted(facts[c], other[c]) && Numeric(facts[c], RuleOf(c))
  }

  /** A repeat of a delivery with its rows in another order is refused alike, and keeps the same rows. */
  lemma DeliveriesAreOrderFree(
    facts: Delivery, other: Delivery, c: Category, r: Result<Delivery, IdentityError>, s: Result<Delivery, IdentityError>)
    requires SameRows(facts, other)
    requires r.Ok? <==> forall d: Category :: AgreeIn(facts, d)
    requires s.Ok? <==> forall d: Category :: AgreeIn(other, d)
    requires r.Ok? && s.Ok? ==> NormalIn(facts, r.value, c) && NormalIn(other, s.value, c)
    ensures r.Ok? <==> s.Ok?
    ensures r.Ok? ==> multiset(r.value[c]) == multiset(s.value[c])
  {
    forall d: Category ensures AgreeIn(facts, d) <==> AgreeIn(other, d) {
      AgreementIsOrderFree(facts[d], other[d], RuleOf(d));
      ConflictFreeIffAgree(facts[d], RuleOf(d));
      ConflictFreeIffAgree(other[d], RuleOf(d));
    }
    if r.Ok? {
      assert AgreeIn(facts, c);
      RulesAreProper(c);
      NumericRowsAreUntied(facts[c], RuleOf(c));
      OrderDoesNotMatter(facts[c], other[c], RuleOf(c));
    }
  }
}
