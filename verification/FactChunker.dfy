/**
 * Packing the facts of an ingest request into messages of bounded size. The chunker keeps a running
 * size instead of writing the JSON of a message each time; the sizes here are those of the JSON text.
 */
module FactChunker {
  import opened Contract
  import opened Utf8

  const MAX_QUEUE_MESSAGE_BYTES := 124_000
  const MAX_TRACE_HEADER_BYTES := 8 * 1_024

  datatype Category =
    Messages | ToolEvents | FileEvents | CapabilitySnapshots | PullRequestLinks | ReviewUnitAttributions

  const CATEGORIES := [Messages, ToolEvents, FileEvents, CapabilitySnapshots, PullRequestLinks, ReviewUnitAttributions]

  /** The JSON texts of the facts of each category. */
  type Facts = map<Category, seq<string>>

  function At(facts: Facts, c: Category): seq<string> {
    if c in facts then facts[c] else []
  }

  /** The escaped text of the trace headers, as it stands between their quotes. */
  datatype TraceContext = TraceContext(sentryTrace: Option<string>, baggage: Option<string>)

  /** What every message of a request repeats: its JSON members except the time, the trace and the facts. */
  datatype Base = Base(content: string, enqueuedAt: nat, trace: Option<TraceContext>)

  datatype Message = Message(base: Base, facts: Facts)

  datatype Outcome = Chunked(messages: seq<Message>) | TooLarge(category: Category, bytes: nat) | ContractBroken

  // ---- the JSON text of a message ----

  function Decimal(n: nat): string {
    (if n < 10 then [] else Decimal(n / 10)) + [('0' as int + n % 10) as char]
  }

  function HeaderText(name: string, header: Option<string>): string {
    match header
    case None => ""
    case Some(text) => "\"" + name + "\":\"" + text + "\""
  }

  function TraceText(trace: Option<TraceContext>): string {
    match trace
    case None => ""
    case Some(t) =>
      ",\"sentry_trace_context\":{" + HeaderText("sentry-trace", t.sentryTrace) +
      (if t.sentryTrace.Some? && t.baggage.Some? then "," else "") + HeaderText("baggage", t.baggage) + "}"
  }

  function Commas(texts: seq<string>): string {
    if texts == [] then ""
    else Commas(texts[..|texts| - 1]) + (if |texts| > 1 then "," else "") + texts[|texts| - 1]
  }

  /** One member of the facts object: its name and the array it holds. */
  datatype Member = Member(name: string, texts: seq<string>)

  function MemberText(m: Member, first: bool): string {
    ((if first then "" else ",") + "\"" + m.name + "\":[") + (Commas(m.texts) + "]")
  }

  function ObjectText(members: seq<Member>): string {
    if members == [] then ""
    else ObjectText(members[..|members| - 1]) + MemberText(members[|members| - 1], |members| == 1)
  }

  function Members(facts: Facts): seq<Member> {
    [Member("messages", At(facts, Messages)), Member("tool_events", At(facts, ToolEvents)),
     Member("file_events", At(facts, FileEvents)), Member("capability_snapshots", At(facts, CapabilitySnapshots)),
     Member("pull_request_links", At(facts, PullRequestLinks)),
     Member("review_unit_attributions", At(facts, ReviewUnitAttributions))]
  }

  function HeadText(base: Base): string {
    "{" + base.content + ",\"enqueued_at\":" + Decimal(base.enqueuedAt) + TraceText(base.trace)
  }

  function MessageText(m: Message): string {
    HeadText(m.base) + ",\"facts\":{" + ObjectText(Members(m.facts)) + "}}"
  }

  function MessageBytes(base: Base, facts: Facts): nat {
    ByteLength(MessageText(Message(base, facts)))
  }

  function EmptyFacts(): Facts {
    map[Messages := [], ToolEvents := [], FileEvents := [], CapabilitySnapshots := [], PullRequestLinks := [],
        ReviewUnitAttributions := []]
  }

  /** The base with the longest time and a trace without headers. */
  function Reserved(base: Base): Base {
    base.(enqueuedAt := MAX_SAFE_INTEGER, trace := Some(TraceContext(Some(""), Some(""))))
  }

  /** The size that a message without facts is counted with. */
  function ChunkBaseSize(base: Base, stable: bool): Option<nat> {
    if !stable then Some(MessageBytes(base, EmptyFacts()))
    else
      var size := ReservedSize(Reserved(base));
      if MessageBytes(base, EmptyFacts()) > size then None else Some(size)
  }

  function ReservedSize(reserved: Base): nat {
    MessageBytes(reserved, EmptyFacts()) + 2 * MAX_TRACE_HEADER_BYTES
  }

  // ---- the facts in packing order ----

  datatype Item = Item(category: Category, text: string)

  function Tagged(c: Category, texts: seq<string>): seq<Item> {
    seq(|texts|, i requires 0 <= i < |texts| => Item(c, texts[i]))
  }

  function ItemsOf(facts: Facts, categories: seq<Category>): seq<Item> {
    if categories == [] then []
    else
      var init, last := categories[..|categories| - 1], categories[|categories| - 1];
      ItemsOf(facts, init) + Tagged(last, At(facts, last))
  }

  function AllItems(facts: Facts): seq<Item> {
    ItemsOf(facts, CATEGORIES)
  }

  function OfCategory(items: seq<Item>, c: Category): seq<string> {
    if items == [] then []
    else
      var init, last := items[..|items| - 1], items[|items| - 1];
      OfCategory(init, c) + if last.category == c then [last.text] else []
  }

  /** The facts of one message, category by category. */
  function Group(run: seq<Item>): Facts {
    map c: Category | true :: OfCategory(run, c)
  }

  lemma EveryCategory(c: Category)
    ensures c in CATEGORIES
  {
    match c
    case Messages => assert CATEGORIES[0] == c;
    case ToolEvents => assert CATEGORIES[1] == c;
    case FileEvents => assert CATEGORIES[2] == c;
    case CapabilitySnapshots => assert CATEGORIES[3] == c;
    case PullRequestLinks => assert CATEGORIES[4] == c;
    case ReviewUnitAttributions => assert CATEGORIES[5] == c;
  }

  lemma CategoriesAreAll(categories: seq<Category>, c: Category)
    requires categories == CATEGORIES
    ensures Distinct(categories) && c in categories
  {
    EveryCategory(c);
  }

  lemma GroupNone()
    ensures Group([]) == EmptyFacts()
  {
    forall c: Category ensures c in EmptyFacts() && EmptyFacts()[c] == [] {
      match c {
        case Messages => case ToolEvents => case FileEvents =>
        case CapabilitySnapshots => case PullRequestLinks => case ReviewUnitAttributions =>
      }
    }
  }

  lemma GroupAppend(run: seq<Item>, item: Item)
    ensures Group(run + [item]) == Group(run)[item.category := At(Group(run), item.category) + [item.text]]
  {
    assert (run + [item])[..|run|] == run;
    var more := Group(run)[item.category := At(Group(run), item.category) + [item.text]];
    forall c: Category ensures c in more && more[c] == OfCategory(run + [item], c) {}
  }

  lemma {:induction false} OfCategoryConcat(a: seq<Item>, b: seq<Item>, c: Category)
    ensures OfCategory(a + b, c) == OfCategory(a, c) + OfCategory(b, c)
  {
    if b == [] {
      assert a + b == a;
    } else {
      assert (a + b)[..|a + b| - 1] == a + b[..|b| - 1];
      OfCategoryConcat(a, b[..|b| - 1], c);
    }
  }

  lemma {:induction false} OfCategoryTagged(c: Category, texts: seq<string>, d: Category)
    ensures OfCategory(Tagged(c, texts), d) == if c == d then texts else []
  {
    if texts != [] {
      var init := texts[..|texts| - 1];
      assert Tagged(c, texts)[..|texts| - 1] == Tagged(c, init);
      OfCategoryTagged(c, init, d);
      assert texts == init + [texts[|texts| - 1]];
    }
  }

  predicate Distinct(categories: seq<Category>) {
    forall i, j :: 0 <= i < j < |categories| ==> categories[i] != categories[j]
  }

  lemma {:induction false} ItemsKeepCategory(facts: Facts, categories: seq<Category>, c: Category)
    requires Distinct(categories)
    ensures OfCategory(ItemsOf(facts, categories), c) == if c in categories then At(facts, c) else []
  {
    if categories != [] {
      var init, last := categories[..|categories| - 1], categories[|categories| - 1];
      assert categories == init + [last];
      ItemsKeepCategory(facts, init, c);
      ItemsKeepLast(facts, init, last, c);
    }
  }

  lemma ItemsKeepLast(facts: Facts, init: seq<Category>, last: Category, c: Category)
    ensures OfCategory(ItemsOf(facts, init + [last]), c) ==
      OfCategory(ItemsOf(facts, init), c) + if last == c then At(facts, last) else []
  {
    assert (init + [last])[..|init|] == init;
    OfCategoryConcat(ItemsOf(facts, init), Tagged(last, At(facts, last)), c);
    OfCategoryTagged(last, At(facts, last), c);
  }

  // ---- sizes ----

  function Separator(facts: Facts, c: Category): nat {
    if At(facts, c) == [] then 0 else 1
  }

  lemma OneChar(c: char)
    requires c as int < 0x80
    ensures ByteLength([c]) == 1
  {
    assert [c][..0] == [];
  }

  lemma CommasAppend(texts: seq<string>, text: string)
    ensures ByteLength(Commas(texts + [text])) ==
      ByteLength(Commas(texts)) + ByteLength(text) + if texts == [] then 0 else 1
  {
    assert (texts + [text])[..|texts|] == texts;
    var comma := if texts == [] then "" else ",";
    OneChar(',');
    ByteLengthConcat(Commas(texts) + comma, text);
    ByteLengthConcat(Commas(texts), comma);
  }

  lemma MemberAppend(m: Member, text: string, first: bool)
    ensures ByteLength(MemberText(m.(texts := m.texts + [text]), first)) ==
      ByteLength(MemberText(m, first)) + ByteLength(text) + if m.texts == [] then 0 else 1
  {
    var head := (if first then "" else ",") + "\"" + m.name + "\":[";
    CommasAppend(m.texts, text);
    ByteLengthConcat(head, Commas(m.texts + [text]) + "]");
    ByteLengthConcat(head, Commas(m.texts) + "]");
    ByteLengthConcat(Commas(m.texts + [text]), "]");
    ByteLengthConcat(Commas(m.texts), "]");
  }

  lemma LastMember(members: seq<Member>)
    requires members != []
    ensures ByteLength(ObjectText(members)) ==
      ByteLength(ObjectText(members[..|members| - 1])) + ByteLength(MemberText(members[|members| - 1], |members| == 1))
  {
    ByteLengthConcat(ObjectText(members[..|members| - 1]), MemberText(members[|members| - 1], |members| == 1));
  }

  /** Adding a fact to one array of an object adds its bytes, and a comma unless it is the first there. */
  lemma {:induction false} ObjectAppend(members: seq<Member>, k: nat, text: string)
    requires k < |members|
    ensures ByteLength(ObjectText(members[k := members[k].(texts := members[k].texts + [text])])) ==
      ByteLength(ObjectText(members)) + ByteLength(text) + if members[k].texts == [] then 0 else 1
  {
    var last := |members| - 1;
    var more := members[k := members[k].(texts := members[k].texts + [text])];
    LastMember(members);
    LastMember(more);
    if k == last {
      assert more[..last] == members[..last];
      MemberAppend(members[last], text, last == 0);
    } else {
      assert more[..last] == members[..last][k := more[k]];
      ObjectAppend(members[..last], k, text);
    }
  }

  lemma MembersUpdate(facts: Facts, c: Category, texts: seq<string>) returns (k: nat)
    ensures k < |Members(facts)| && Members(facts)[k].texts == At(facts, c)
    ensures Members(facts[c := texts]) == Members(facts)[k := Members(facts)[k].(texts := texts)]
  {
    k := match c
      case Messages => 0
      case ToolEvents => 1
      case FileEvents => 2
      case CapabilitySnapshots => 3
      case PullRequestLinks => 4
      case ReviewUnitAttributions => 5;
  }

  lemma Sandwich(a: string, b: string, c: string)
    ensures ByteLength(a + b + c) == ByteLength(a) + ByteLength(b) + ByteLength(c)
  {
    ByteLengthConcat(a + b, c);
    ByteLengthConcat(a, b);
  }

  lemma MessageAppend(base: Base, facts: Facts, c: Category, text: string)
    ensures MessageBytes(base, facts[c := At(facts, c) + [text]]) ==
      MessageBytes(base, facts) + ByteLength(text) + Separator(facts, c)
  {
    var texts := At(facts, c) + [text];
    var k := MembersUpdate(facts, c, texts);
    ObjectAppend(Members(facts), k, text);
    var head := HeadText(base) + ",\"facts\":{";
    Sandwich(head, ObjectText(Members(facts)), "}}");
    Sandwich(head, ObjectText(Members(facts[c := texts])), "}}");
  }

  /**
   * The counted size of a message that carries a run of facts: each adds its bytes, and a comma
   * when its array already holds one.
   */
  function RunSize(baseSize: nat, run: seq<Item>): nat {
    if run == [] then baseSize
    else
      var init, last := run[..|run| - 1], run[|run| - 1];
      RunSize(baseSize, init) + ByteLength(last.text) + if OfCategory(init, last.category) == [] then 0 else 1
  }

  lemma RunSizeAppend(baseSize: nat, run: seq<Item>, item: Item)
    ensures RunSize(baseSize, run + [item]) ==
      RunSize(baseSize, run) + ByteLength(item.text) + if OfCategory(run, item.category) == [] then 0 else 1
  {
    assert (run + [item])[..|run|] == run;
  }

  lemma RunSizeOne(baseSize: nat, item: Item)
    ensures RunSize(baseSize, [item]) == baseSize + ByteLength(item.text)
  {
    RunSizeAppend(baseSize, [], item);
    assert [] + [item] == [item];
  }

  /** The count is exact: it is off by as much as the size it starts from. */
  lemma {:induction false} CountIsExact(base: Base, baseSize: nat, run: seq<Item>)
    ensures MessageBytes(base, Group(run)) + baseSize == RunSize(baseSize, run) + MessageBytes(base, EmptyFacts())
  {
    if run == [] {
      GroupNone();
    } else {
      var init, last := run[..|run| - 1], run[|run| - 1];
      CountIsExact(base, baseSize, init);
      assert run == init + [last];
      GroupAppend(init, last);
      MessageAppend(base, Group(init), last.category, last.text);
    }
  }

  lemma {:induction false} PrefixIsSmaller(baseSize: nat, run: seq<Item>, n: nat)
    requires n <= |run|
    ensures RunSize(baseSize, run[..n]) <= RunSize(baseSize, run)
  {
    if n < |run| {
      var init := run[..|run| - 1];
      assert run == init + [run[|run| - 1]] && init[..n] == run[..n];
      RunSizeAppend(baseSize, init, run[|run| - 1]);
      PrefixIsSmaller(baseSize, init, n);
    } else {
      assert run[..n] == run;
    }
  }

  // ---- cutting the facts into runs ----

  function Concat(runs: seq<seq<Item>>): seq<Item> {
    if runs == [] then [] else runs[0] + Concat(runs[1..])
  }

  lemma {:induction false} ConcatAppend(runs: seq<seq<Item>>, run: seq<Item>)
    ensures Concat(runs + [run]) == Concat(runs) + run
  {
    if runs == [] {
      assert runs + [run] == [run] && [run][1..] == [];
    } else {
      assert (runs + [run])[1..] == runs[1..] + [run];
      ConcatAppend(runs[1..], run);
    }
  }

  predicate Fits(run: seq<Item>, baseSize: nat, max: nat) {
    run != [] && RunSize(baseSize, run) <= max
  }

  /** The fact that opens a run would not have fitted into the run before it. */
  predicate Tight(before: seq<Item>, after: seq<Item>, baseSize: nat, max: nat) {
    after != [] && RunSize(baseSize, before + [after[0]]) > max
  }

  /** Consecutive runs of all the facts, none of them empty or too large, and none opened too early. */
  ghost predicate IsCut(runs: seq<seq<Item>>, items: seq<Item>, baseSize: nat, max: nat) {
    && Concat(runs) == items
    && (forall i :: 0 <= i < |runs| ==> Fits(runs[i], baseSize, max))
    && (forall i :: 0 < i < |runs| ==> Tight(runs[i - 1], runs[i], baseSize, max))
  }

  /** The first run of a cut is the longest one that fits. */
  lemma FirstRunIsLongest(a: seq<seq<Item>>, items: seq<Item>, baseSize: nat, max: nat, n: nat)
    requires IsCut(a, items, baseSize, max) && a != []
    requires |a[0]| < n <= |items|
    ensures RunSize(baseSize, items[..n]) > max
  {
    var k := |a[0]|;
    assert items == a[0] + Concat(a[1..]);
    assert |a| > 1 && Tight(a[0], a[1], baseSize, max);
    assert Concat(a[1..]) == a[1] + Concat(a[1..][1..]);
    assert items[k] == a[1][0] && items[..k + 1] == a[0] + [a[1][0]];
    assert items[..n][..k + 1] == items[..k + 1];
    PrefixIsSmaller(baseSize, items[..n], k + 1);
  }

  lemma RestIsCut(a: seq<seq<Item>>, items: seq<Item>, baseSize: nat, max: nat)
    requires IsCut(a, items, baseSize, max) && a != []
    ensures 0 < |a[0]| <= |items| && items[..|a[0]|] == a[0] && RunSize(baseSize, a[0]) <= max
    ensures IsCut(a[1..], items[|a[0]|..], baseSize, max)
  {
    assert Fits(a[0], baseSize, max);
    assert items == a[0] + Concat(a[1..]);
    assert items[|a[0]|..] == Concat(a[1..]);
  }

  /** There is only one way to cut the facts. */
  lemma {:induction false} CutIsUnique(a: seq<seq<Item>>, b: seq<seq<Item>>, items: seq<Item>, baseSize: nat, max: nat)
    requires IsCut(a, items, baseSize, max) && IsCut(b, items, baseSize, max)
    ensures a == b
  {
    if a != [] {
      RestIsCut(a, items, baseSize, max);
    }
    if b != [] {
      RestIsCut(b, items, baseSize, max);
    }
    if a != [] && b != [] {
      if |a[0]| < |b[0]| {
        FirstRunIsLongest(a, items, baseSize, max, |b[0]|);
      } else if |b[0]| < |a[0]| {
        FirstRunIsLongest(b, items, baseSize, max, |a[0]|);
      }
      CutIsUnique(a[1..], b[1..], items[|a[0]|..], baseSize, max);
    }
  }

  // ---- packing ----

  function MessagesOf(base: Base, runs: seq<seq<Item>>): seq<Message> {
    seq(|runs|, i requires 0 <= i < |runs| => Message(base, Group(runs[i])))
  }

  predicate Oversized(item: Item, baseSize: nat, max: nat) {
    baseSize + ByteLength(item.text) > max
  }

  /** Fact `k` is the first that fits in no message. */
  ghost predicate FirstOversized(items: seq<Item>, k: int, baseSize: nat, max: nat) {
    && 0 <= k < |items| && Oversized(items[k], baseSize, max)
    && forall i :: 0 <= i < k ==> !Oversized(items[i], baseSize, max)
  }

  /** What packing promises: a cut of the facts, or the first fact that is too large. */
  ghost predicate Packs(base: Base, facts: Facts, max: nat, stable: bool, outcome: Outcome) {
    var size := ChunkBaseSize(base, stable);
    match outcome
    case ContractBroken => size.None?
    case TooLarge(category, bytes) => size.Some? && Rejects(AllItems(facts), size.value, max, category, bytes)
    case Chunked(messages) => size.Some? && Carries(AllItems(facts), size.value, max, base, messages)
  }

  ghost predicate Rejects(items: seq<Item>, baseSize: nat, max: nat, category: Category, bytes: nat) {
    exists item :: FirstMisfit(items, item, baseSize, max) && category == item.category &&
      bytes == baseSize + ByteLength(item.text)
  }

  ghost predicate Carries(items: seq<Item>, baseSize: nat, max: nat, base: Base, messages: seq<Message>) {
    exists runs :: IsCut(runs, items, baseSize, max) && messages == MessagesOf(base, runs)
  }

  /** Where the packing stands: the finished runs, the one being filled, and together the facts so far. */
  ghost predicate Cutting(done: seq<Item>, runs: seq<seq<Item>>, run: seq<Item>, baseSize: nat, max: nat) {
    && Concat(runs) + run == done && IsCut(runs, Concat(runs), baseSize, max)
    && (run == [] ==> runs == [])
    && (run != [] ==> RunSize(baseSize, run) <= max)
    && (run != [] && runs != [] ==> Tight(runs[|runs| - 1], run, baseSize, max))
  }

  lemma CutAppend(runs: seq<seq<Item>>, run: seq<Item>, baseSize: nat, max: nat)
    requires IsCut(runs, Concat(runs), baseSize, max) && Fits(run, baseSize, max)
    requires runs != [] ==> Tight(runs[|runs| - 1], run, baseSize, max)
    ensures IsCut(runs + [run], Concat(runs) + run, baseSize, max)
  {
    ConcatAppend(runs, run);
    var more := runs + [run];
    forall i | 0 <= i < |more| ensures Fits(more[i], baseSize, max) {
      assert more[i] == if i < |runs| then runs[i] else run;
    }
    forall i | 0 < i < |more| ensures Tight(more[i - 1], more[i], baseSize, max) {
      assert more[i - 1] == runs[i - 1] && more[i] == if i < |runs| then runs[i] else run;
    }
  }

  lemma CloseRun(done: seq<Item>, runs: seq<seq<Item>>, run: seq<Item>, item: Item, baseSize: nat, max: nat)
    requires Cutting(done, runs, run, baseSize, max) && run != [] && !Oversized(item, baseSize, max)
    requires RunSize(baseSize, run + [item]) > max
    ensures Cutting(done + [item], runs + [run], [] + [item], baseSize, max)
  {
    ConcatAppend(runs, run);
    CutAppend(runs, run, baseSize, max);
    RunSizeOne(baseSize, item);
    assert [] + [item] == [item] && [item][0] == item;
  }

  lemma GrowRun(done: seq<Item>, runs: seq<seq<Item>>, run: seq<Item>, item: Item, baseSize: nat, max: nat)
    requires Cutting(done, runs, run, baseSize, max) && RunSize(baseSize, run + [item]) <= max
    ensures Cutting(done + [item], runs, run + [item], baseSize, max)
  {
    assert Concat(runs) + (run + [item]) == done + [item];
    if run != [] {
      assert (run + [item])[0] == run[0];
    }
  }

  lemma FinishRuns(items: seq<Item>, runs: seq<seq<Item>>, run: seq<Item>, baseSize: nat, max: nat)
    requires Cutting(items, runs, run, baseSize, max)
    ensures run == [] ==> IsCut(runs, items, baseSize, max)
    ensures run != [] ==> IsCut(runs + [run], items, baseSize, max)
  {
    if run == [] {
      assert Concat(runs) + run == Concat(runs);
    } else {
      CutAppend(runs, run, baseSize, max);
    }
  }

  // ---- walking the facts: category by category, fact by fact ----

  /** The facts before fact `j` of category `i`. */
  ghost predicate Reached(facts: Facts, done: seq<Item>, i: nat, j: nat) {
    && i < |CATEGORIES| && j <= |At(facts, CATEGORIES[i])|
    && done == ItemsOf(facts, CATEGORIES[..i]) + Tagged(CATEGORIES[i], At(facts, CATEGORIES[i])[..j])
  }

  lemma EnterCategory(facts: Facts, i: nat)
    requires i < |CATEGORIES|
    ensures Reached(facts, ItemsOf(facts, CATEGORIES[..i]), i, 0)
  {}

  lemma LeaveCategory(facts: Facts, done: seq<Item>, i: nat)
    requires i < |CATEGORIES| && Reached(facts, done, i, |At(facts, CATEGORIES[i])|)
    ensures done == ItemsOf(facts, CATEGORIES[..i + 1])
  {
    assert CATEGORIES[..i + 1][..i] == CATEGORIES[..i];
    var texts := At(facts, CATEGORIES[i]);
    assert texts[..|texts|] == texts;
  }

  lemma {:induction false} ItemsPrefix(facts: Facts, categories: seq<Category>, i: nat)
    requires i <= |categories|
    ensures ItemsOf(facts, categories[..i]) <= ItemsOf(facts, categories)
  {
    if i < |categories| {
      ItemsPrefix(facts, categories[..|categories| - 1], i);
      assert categories[..|categories| - 1][..i] == categories[..i];
    } else {
      assert categories[..i] == categories;
    }
  }

  lemma NextItem(facts: Facts, done: seq<Item>, i: nat, j: nat)
    requires Reached(facts, done, i, j) && j < |At(facts, CATEGORIES[i])|
    ensures Reached(facts, done + [Item(CATEGORIES[i], At(facts, CATEGORIES[i])[j])], i, j + 1)
    ensures done + [Item(CATEGORIES[i], At(facts, CATEGORIES[i])[j])] <= AllItems(facts)
  {
    var c := CATEGORIES[i];
    var texts := At(facts, c);
    assert Tagged(c, texts[..j + 1]) == Tagged(c, texts[..j]) + [Item(c, texts[j])];
    assert Tagged(c, texts[..j + 1]) <= Tagged(c, texts);
    assert CATEGORIES[..i + 1][..i] == CATEGORIES[..i];
    ItemsPrefix(facts, CATEGORIES, i + 1);
  }

  // ---- the two loops ----

  ghost predicate AllFit(items: seq<Item>, baseSize: nat, max: nat) {
    forall i :: 0 <= i < |items| ==> !Oversized(items[i], baseSize, max)
  }

  ghost predicate FirstMisfit(items: seq<Item>, item: Item, baseSize: nat, max: nat) {
    exists k :: FirstOversized(items, k, baseSize, max) && items[k] == item
  }

  lemma MisfitFound(items: seq<Item>, done: seq<Item>, item: Item, baseSize: nat, max: nat)
    requires AllFit(done, baseSize, max) && done + [item] <= items && Oversized(item, baseSize, max)
    ensures FirstMisfit(items, item, baseSize, max)
  {
    assert items[|done|] == (done + [item])[|done|];
    forall i | 0 <= i < |done| ensures items[i] == done[i] {
      assert items[i] == (done + [item])[i];
    }
    assert FirstOversized(items, |done|, baseSize, max);
  }

  /** Checks every fact before any is packed. */
  method AssertFactsFit(facts: Facts, baseSize: nat, max: nat) returns (error: Option<Item>)
    ensures error.None? ==> AllFit(AllItems(facts), baseSize, max)
    ensures error.Some? ==> FirstMisfit(AllItems(facts), error.value, baseSize, max)
  {
    ghost var done: seq<Item> := [];
    for i := 0 to |CATEGORIES|
      invariant done == ItemsOf(facts, CATEGORIES[..i]) && AllFit(done, baseSize, max)
    {
      var texts := At(facts, CATEGORIES[i]);
      EnterCategory(facts, i);
      for j := 0 to |texts|
        invariant Reached(facts, done, i, j) && AllFit(done, baseSize, max)
      {
        NextItem(facts, done, i, j);
        if baseSize + ByteLength(texts[j]) > max {
          MisfitFound(AllItems(facts), done, Item(CATEGORIES[i], texts[j]), baseSize, max);
          return Some(Item(CATEGORIES[i], texts[j]));
        }
        done := done + [Item(CATEGORIES[i], texts[j])];
      }
      LeaveCategory(facts, done, i);
    }
    assert CATEGORIES[..|CATEGORIES|] == CATEGORIES;
    return None;
  }

  /** The messages packed so far and the one being filled, with its size and number of facts. */
  datatype Packing = Packing(messages: seq<Message>, current: Facts, size: nat, count: nat)

  /** The packing, told by the runs of facts it stands for. */
  ghost predicate Stands(p: Packing, base: Base, runs: seq<seq<Item>>, run: seq<Item>, baseSize: nat) {
    && p.messages == MessagesOf(base, runs) && p.current == Group(run) && p.count == |run|
    && p.size == RunSize(baseSize, run)
  }

  method Flush(p: Packing, base: Base, baseSize: nat, ghost runs: seq<seq<Item>>, ghost run: seq<Item>) returns (q: Packing)
    requires Stands(p, base, runs, run, baseSize)
    ensures if run == [] then q == p else Stands(q, base, runs + [run], [], baseSize)
  {
    if p.count == 0 {
      return p;
    }
    GroupNone();
    MessagesAppend(base, runs, run);
    q := Packing(p.messages + [Message(base, p.current)], EmptyFacts(), baseSize, 0);
  }

  method Put(p: Packing, base: Base, baseSize: nat, item: Item, ghost runs: seq<seq<Item>>, ghost run: seq<Item>) returns (q: Packing)
    requires Stands(p, base, runs, run, baseSize)
    ensures Stands(q, base, runs, run + [item], baseSize)
  {
    RunSizeAppend(baseSize, run, item);
    GroupAppend(run, item);
    var factSize := ByteLength(item.text) + if |At(p.current, item.category)| > 0 then 1 else 0;
    var current := p.current[item.category := At(p.current, item.category) + [item.text]];
    q := Packing(p.messages, current, p.size + factSize, p.count + 1);
  }

  /** Adds one fact to the message being filled, or to a new one when it does not fit there. */
  method AddFact(
    p: Packing, base: Base, baseSize: nat, max: nat, item: Item, ghost done: seq<Item>, ghost runs0: seq<seq<Item>>,
    ghost run0: seq<Item>)
    returns (q: Packing, ghost runs: seq<seq<Item>>, ghost run: seq<Item>)
    requires Stands(p, base, runs0, run0, baseSize) && Cutting(done, runs0, run0, baseSize, max)
    requires !Oversized(item, baseSize, max)
    ensures Stands(q, base, runs, run, baseSize) && Cutting(done + [item], runs, run, baseSize, max)
  {
    q, runs, run := p, runs0, run0;
    var factSize := ByteLength(item.text) + if |At(p.current, item.category)| > 0 then 1 else 0;
    RunSizeAppend(baseSize, run0, item);
    if p.count > 0 && p.size + factSize > max {
      CloseRun(done, runs0, run0, item, baseSize, max);
      q := Flush(p, base, baseSize, runs0, run0);
      runs, run := runs0 + [run0], [];
    } else {
      OpenRun(done, runs0, run0, item, baseSize, max);
    }
    q := Put(q, base, baseSize, item, runs, run);
    run := run + [item];
  }

  /** Packs facts that all fit. */
  method PackFacts(base: Base, facts: Facts, max: nat, baseSize: nat) returns (messages: seq<Message>, ghost runs: seq<seq<Item>>)
    requires AllFit(AllItems(facts), baseSize, max)
    ensures IsCut(runs, AllItems(facts), baseSize, max) && messages == MessagesOf(base, runs)
  {
    runs := [];
    var p := Packing([], EmptyFacts(), baseSize, 0);
    ghost var done: seq<Item>, run: seq<Item> := [], [];
    GroupNone();
    for i := 0 to |CATEGORIES|
      invariant done == ItemsOf(facts, CATEGORIES[..i])
      invariant Cutting(done, runs, run, baseSize, max) && Stands(p, base, runs, run, baseSize)
    {
      var texts := At(facts, CATEGORIES[i]);
      EnterCategory(facts, i);
      for j := 0 to |texts|
        invariant Reached(facts, done, i, j)
        invariant Cutting(done, runs, run, baseSize, max) && Stands(p, base, runs, run, baseSize)
      {
        var item := Item(CATEGORIES[i], texts[j]);
        NextItem(facts, done, i, j);
        ItemFits(facts, done, item, baseSize, max);
        p, runs, run := AddFact(p, base, baseSize, max, item, done, runs, run);
        done := done + [item];
      }
      LeaveCategory(facts, done, i);
    }
    assert CATEGORIES[..|CATEGORIES|] == CATEGORIES;
    FinishRuns(AllItems(facts), runs, run, baseSize, max);
    p := Flush(p, base, baseSize, runs, run);
    runs := if run == [] then runs else runs + [run];
    messages := p.messages;
  }

  lemma ItemFits(facts: Facts, done: seq<Item>, item: Item, baseSize: nat, max: nat)
    requires AllFit(AllItems(facts), baseSize, max) && done + [item] <= AllItems(facts)
    ensures !Oversized(item, baseSize, max)
  {
    assert AllItems(facts)[|done|] == (done + [item])[|done|];
  }

  lemma MessagesAppend(base: Base, runs: seq<seq<Item>>, run: seq<Item>)
    ensures MessagesOf(base, runs + [run]) == MessagesOf(base, runs) + [Message(base, Group(run))]
  {}

  lemma OpenRun(done: seq<Item>, runs: seq<seq<Item>>, run: seq<Item>, item: Item, baseSize: nat, max: nat)
    requires Cutting(done, runs, run, baseSize, max) && !Oversized(item, baseSize, max)
    requires run == [] || RunSize(baseSize, run + [item]) <= max
    ensures Cutting(done + [item], runs, run + [item], baseSize, max)
  {
    RunSizeOne(baseSize, item);
    if run == [] {
      assert [] + [item] == [item];
    }
    GrowRun(done, runs, run, item, baseSize, max);
  }

  /** Packs the facts of a request, or names the first one that no message can hold. */
  method ChunkFacts(base: Base, facts: Facts, max: nat := MAX_QUEUE_MESSAGE_BYTES, stable: bool := false) returns (outcome: Outcome)
    ensures Packs(base, facts, max, stable, outcome)
  {
    var size := ChunkBaseSize(base, stable);
    if size.None? {
      return ContractBroken;
    }
    var error := AssertFactsFit(facts, size.value, max);
    if error.Some? {
      return TooLarge(error.value.category, size.value + ByteLength(error.value.text));
    }
    var messages, runs := PackFacts(base, facts, max, size.value);
    outcome := Chunked(messages);
  }

  // ---- what the messages hold ----

  /** The facts of one category, message after message. */
  function Across(messages: seq<Message>, c: Category): seq<string> {
    if messages == [] then [] else At(messages[0].facts, c) + Across(messages[1..], c)
  }

  lemma {:induction false} AcrossRuns(base: Base, runs: seq<seq<Item>>, c: Category)
    ensures Across(MessagesOf(base, runs), c) == OfCategory(Concat(runs), c)
  {
    if runs != [] {
      assert MessagesOf(base, runs)[1..] == MessagesOf(base, runs[1..]);
      AcrossRuns(base, runs[1..], c);
      OfCategoryConcat(runs[0], Concat(runs[1..]), c);
    }
  }

  lemma ItemsAreFacts(facts: Facts, c: Category)
    ensures OfCategory(AllItems(facts), c) == At(facts, c)
  {
    CategoriesAreAll(CATEGORIES, c);
    ItemsKeepCategory(facts, CATEGORIES, c);
  }

  lemma CarriedFacts(items: seq<Item>, baseSize: nat, max: nat, base: Base, messages: seq<Message>, c: Category)
    requires Carries(items, baseSize, max, base, messages)
    ensures Across(messages, c) == OfCategory(items, c)
  {
    var runs :| IsCut(runs, items, baseSize, max) && messages == MessagesOf(base, runs);
    AcrossRuns(base, runs, c);
  }

  /** No fact is lost, repeated or moved: the messages hold each category's facts in their order. */
  lemma FactsArePreserved(base: Base, facts: Facts, max: nat, stable: bool, messages: seq<Message>, c: Category)
    requires Packs(base, facts, max, stable, Chunked(messages))
    ensures Across(messages, c) == At(facts, c)
  {
    CarriedFacts(AllItems(facts), ChunkBaseSize(base, stable).value, max, base, messages, c);
    ItemsAreFacts(facts, c);
  }

  /** Stable packing never counts a message for less than its bytes; exact packing counts them. */
  lemma CountBoundsBytes(base: Base, stable: bool, run: seq<Item>)
    requires ChunkBaseSize(base, stable).Some?
    ensures MessageBytes(base, Group(run)) <= RunSize(ChunkBaseSize(base, stable).value, run)
    ensures !stable ==> MessageBytes(base, Group(run)) == RunSize(ChunkBaseSize(base, stable).value, run)
  {
    CountIsExact(base, ChunkBaseSize(base, stable).value, run);
  }

  predicate HasFact(facts: Facts) {
    exists c: Category :: At(facts, c) != []
  }

  lemma RunHasFact(run: seq<Item>)
    requires run != []
    ensures HasFact(Group(run))
  {
    var last := run[|run| - 1];
    assert At(Group(run), last.category) == OfCategory(run, last.category);
    assert OfCategory(run, last.category) != [];
  }

  /**
   * Every message holds a fact and stays within the limit. That also goes for the same facts under
   * another time and trace that the base check accepts, such as those of a retry.
   */
  lemma MessagesFit(base: Base, facts: Facts, max: nat, stable: bool, messages: seq<Message>, i: nat, other: Base)
    requires Packs(base, facts, max, stable, Chunked(messages)) && i < |messages|
    requires other == base || (stable && other.content == base.content && ChunkBaseSize(other, true).Some?)
    ensures messages[i].base == base && HasFact(messages[i].facts)
    ensures MessageBytes(other, messages[i].facts) <= max
  {
    var size := ChunkBaseSize(base, stable);
    assert Carries(AllItems(facts), size.value, max, base, messages);
    var runs :| IsCut(runs, AllItems(facts), size.value, max) && messages == MessagesOf(base, runs);
    assert Fits(runs[i], size.value, max);
    RunHasFact(runs[i]);
    SameReserve(base, other);
    CountBoundsBytes(other, stable, runs[i]);
  }

  lemma SameReserve(a: Base, b: Base)
    requires a.content == b.content
    ensures Reserved(a) == Reserved(b)
    ensures ChunkBaseSize(a, true).Some? && ChunkBaseSize(b, true).Some? ==> ChunkBaseSize(a, true) == ChunkBaseSize(b, true)
  {}

  // ---- a retry packs alike ----

  predicate SameFacts(a: seq<Message>, b: seq<Message>) {
    |a| == |b| && forall i :: 0 <= i < |a| ==> a[i].facts == b[i].facts
  }

  lemma MisfitIsUnique(items: seq<Item>, a: Item, b: Item, baseSize: nat, max: nat)
    requires FirstMisfit(items, a, baseSize, max) && FirstMisfit(items, b, baseSize, max)
    ensures a == b
  {
    var i :| FirstOversized(items, i, baseSize, max) && items[i] == a;
    var j :| FirstOversized(items, j, baseSize, max) && items[j] == b;
  }

  /** Facts of which one fits in no message cannot be cut. */
  lemma {:induction false} CutMeansAllFit(runs: seq<seq<Item>>, items: seq<Item>, baseSize: nat, max: nat, k: nat)
    requires IsCut(runs, items, baseSize, max) && k < |items|
    ensures !Oversized(items[k], baseSize, max)
  {
    RestIsCut(runs, items, baseSize, max);
    if k < |runs[0]| {
      OneFactOfRun(runs[0], baseSize, k);
      assert items[k] == runs[0][k];
    } else {
      assert items[k] == items[|runs[0]|..][k - |runs[0]|];
      CutMeansAllFit(runs[1..], items[|runs[0]|..], baseSize, max, k - |runs[0]|);
    }
  }

  lemma OneFactOfRun(run: seq<Item>, baseSize: nat, k: nat)
    requires k < |run|
    ensures baseSize + ByteLength(run[k].text) <= RunSize(baseSize, run)
  {
    PrefixIsSmaller(baseSize, run, k + 1);
    assert run[..k + 1] == run[..k] + [run[k]];
    RunSizeAppend(baseSize, run[..k], run[k]);
    PrefixIsSmaller(baseSize, run[..k], 0);
  }

  /** Packing is rejected if and only if some fact fits in no message. */
  lemma RejectedIffOversized(base: Base, facts: Facts, max: nat, stable: bool, outcome: Outcome)
    requires Packs(base, facts, max, stable, outcome) && !outcome.ContractBroken?
    ensures outcome.TooLarge? <==>
      !AllFit(AllItems(facts), ChunkBaseSize(base, stable).value, max)
  {
    var size, items := ChunkBaseSize(base, stable).value, AllItems(facts);
    match outcome
    case TooLarge(category, bytes) =>
      var item :| FirstMisfit(items, item, size, max);
    case Chunked(messages) =>
      assert Carries(items, size, max, base, messages);
      var runs :| IsCut(runs, items, size, max) && messages == MessagesOf(base, runs);
      forall k | 0 <= k < |items| ensures !Oversized(items[k], size, max) {
        CutMeansAllFit(runs, items, size, max, k);
      }
    case ContractBroken =>
  }

  /**
   * Retries keep their chunks: under the same content, neither the enqueue time nor the trace moves
   * a boundary or changes an error, however the facts were cut.
   */
  lemma BoundariesAreStable(a: Base, b: Base, facts: Facts, max: nat, x: Outcome, y: Outcome)
    requires a.content == b.content && Packs(a, facts, max, true, x) && Packs(b, facts, max, true, y)
    requires !x.ContractBroken? && !y.ContractBroken?
    ensures x.TooLarge? ==> y == x
    ensures x.Chunked? ==> y.Chunked? && SameFacts(x.messages, y.messages)
  {
    SameReserve(a, b);
    RejectedIffOversized(a, facts, max, true, x);
    RejectedIffOversized(b, facts, max, true, y);
    var size := ChunkBaseSize(a, true).value;
    if x.TooLarge? {
      assert Rejects(AllItems(facts), size, max, x.category, x.bytes) && Rejects(AllItems(facts), size, max, y.category, y.bytes);
      RejectionIsUnique(AllItems(facts), size, max, x, y);
    } else {
      CarriersAgree(AllItems(facts), size, max, a, b, x.messages, y.messages);
    }
  }

  lemma RejectionIsUnique(items: seq<Item>, baseSize: nat, max: nat, x: Outcome, y: Outcome)
    requires x.TooLarge? && y.TooLarge?
    requires Rejects(items, baseSize, max, x.category, x.bytes) && Rejects(items, baseSize, max, y.category, y.bytes)
    ensures x == y
  {
    var i :| FirstMisfit(items, i, baseSize, max) && x.category == i.category && x.bytes == baseSize + ByteLength(i.text);
    var j :| FirstMisfit(items, j, baseSize, max) && y.category == j.category && y.bytes == baseSize + ByteLength(j.text);
    MisfitIsUnique(items, i, j, baseSize, max);
  }

  lemma CarriersAgree(items: seq<Item>, baseSize: nat, max: nat, a: Base, b: Base, x: seq<Message>, y: seq<Message>)
    requires Carries(items, baseSize, max, a, x) && Carries(items, baseSize, max, b, y)
    ensures SameFacts(x, y)
  {
    var r :| IsCut(r, items, baseSize, max) && x == MessagesOf(a, r);
    var s :| IsCut(s, items, baseSize, max) && y == MessagesOf(b, s);
    CutIsUnique(r, s, items, baseSize, max);
  }

  // ---- which times and traces the reserve covers ----

  predicate SmallHeader(header: Option<string>) {
    header.Some? ==> ByteLength(header.value) <= MAX_TRACE_HEADER_BYTES
  }

  predicate SmallTrace(trace: Option<TraceContext>) {
    trace.Some? ==> SmallHeader(trace.value.sentryTrace) && SmallHeader(trace.value.baggage)
  }

  lemma {:induction false} DecimalBytes(n: nat)
    ensures ByteLength(Decimal(n)) == |Decimal(n)|
  {
    if n >= 10 {
      DecimalBytes(n / 10);
    }
    var digit := ('0' as int + n % 10) as char;
    OneChar(digit);
    ByteLengthConcat(if n < 10 then [] else Decimal(n / 10), [digit]);
  }

  lemma {:induction false} DecimalGrows(m: nat, n: nat)
    requires m <= n
    ensures |Decimal(m)| <= |Decimal(n)|
    decreases n
  {
    if m >= 10 {
      DecimalGrows(m / 10, n / 10);
    }
  }

  lemma HeaderBytes(name: string, header: Option<string>)
    requires SmallHeader(header)
    ensures ByteLength(HeaderText(name, header)) <= ByteLength(HeaderText(name, Some(""))) + MAX_TRACE_HEADER_BYTES
  {
    if header.Some? {
      var open := "\"" + name + "\":\"";
      Sandwich(open, header.value, "\"");
      Sandwich(open, "", "\"");
    }
  }

  /** The text of a trace between its braces, given the separator. */
  lemma ContextBytes(open: string, a: string, comma: string, b: string, close: string)
    ensures ByteLength(open + a + comma + b + close) ==
      ByteLength(open) + ByteLength(a) + ByteLength(comma) + ByteLength(b) + ByteLength(close)
  {
    Sandwich(open, a, comma);
    Sandwich(open + a + comma, b, close);
  }

  lemma TraceBytes(trace: Option<TraceContext>)
    requires SmallTrace(trace)
    ensures ByteLength(TraceText(trace)) <=
      ByteLength(TraceText(Some(TraceContext(Some(""), Some(""))))) + 2 * MAX_TRACE_HEADER_BYTES
  {
    if trace.Some? {
      var open, close := ",\"sentry_trace_context\":{", "}";
      var t := trace.value;
      var comma := if t.sentryTrace.Some? && t.baggage.Some? then "," else "";
      OneChar(',');
      HeaderBytes("sentry-trace", t.sentryTrace);
      HeaderBytes("baggage", t.baggage);
      ContextBytes(open, HeaderText("sentry-trace", t.sentryTrace), comma, HeaderText("baggage", t.baggage), close);
      ContextBytes(open, HeaderText("sentry-trace", Some("")), ",", HeaderText("baggage", Some("")), close);
    }
  }

  /** The end of a message without facts. */
  function EmptyTail(): string {
    ",\"facts\":{" + ObjectText(Members(EmptyFacts())) + "}}"
  }

  lemma EmptyMessageText(base: Base)
    ensures MessageText(Message(base, EmptyFacts())) == HeadText(base) + EmptyTail()
  {}

  lemma HeadBytes(base: Base)
    ensures ByteLength(HeadText(base)) ==
      ByteLength("{" + base.content + ",\"enqueued_at\":") + ByteLength(Decimal(base.enqueuedAt)) + ByteLength(TraceText(base.trace))
  {
    Sandwich("{" + base.content + ",\"enqueued_at\":", Decimal(base.enqueuedAt), TraceText(base.trace));
  }

  lemma BaseBytes(base: Base)
    ensures MessageBytes(base, EmptyFacts()) ==
      ByteLength("{" + base.content + ",\"enqueued_at\":") + ByteLength(Decimal(base.enqueuedAt)) +
      ByteLength(TraceText(base.trace)) + ByteLength(EmptyTail())
  {
    EmptyMessageText(base);
    HeadBytes(base);
    ByteLengthConcat(HeadText(base), EmptyTail());
  }

  /** A time within the safe integers and headers within the limit never break the contract. */
  lemma SmallTracesAreCovered(base: Base)
    requires base.enqueuedAt <= MAX_SAFE_INTEGER && SmallTrace(base.trace)
    ensures ChunkBaseSize(base, true).Some?
  {
    BaseBytes(base);
    BaseBytes(Reserved(base));
    DecimalBytes(base.enqueuedAt);
    DecimalBytes(MAX_SAFE_INTEGER);
    DecimalGrows(base.enqueuedAt, MAX_SAFE_INTEGER);
    TraceBytes(base.trace);
  }
}
