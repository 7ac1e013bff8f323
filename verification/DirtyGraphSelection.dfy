/**
 * The search that picks the days of a snapshot: a worklist walk collects the components of the
 * dirty-day graph, the ones holding an incomplete day are dropped, and the rest are packed newest
 * first. The result is exactly the reference definition `DayGraph.Select`, in ascending order.
 */
module DirtyGraphSelection {
  import opened Contract
  import opened DayGraph

  function DaySet(days: seq<Day>): set<Day> {
    set d | d in days
  }

  predicate Ascending(days: seq<Day>) {
    forall i, j :: 0 <= i < j < |days| ==> days[i] < days[j]
  }

  predicate Distinct(days: seq<Day>) {
    forall i, j :: 0 <= i < j < |days| ==> days[i] != days[j]
  }

  function Last(days: seq<Day>): Day
    requires days != []
  {
    days[|days| - 1]
  }

  lemma {:induction false} DistinctCardinality(days: seq<Day>)
    requires Distinct(days)
    ensures |DaySet(days)| == |days|
  {
    if days != [] {
      var init := days[..|days| - 1];
      DistinctCardinality(init);
      assert days == init + [Last(days)];
      assert DaySet(days) == DaySet(init) + {Last(days)};
    }
  }

  lemma AscendingIsDistinct(days: seq<Day>)
    requires Ascending(days)
    ensures Distinct(days) && |DaySet(days)| == |days|
  {
    DistinctCardinality(days);
  }

  lemma DistinctWithin(days: seq<Day>, bound: set<Day>)
    requires Distinct(days) && DaySet(days) <= bound
    ensures |days| <= |bound|
  {
    DistinctCardinality(days);
    SubsetCardinality(DaySet(days), bound);
  }

  lemma DaySetConcat(a: seq<Day>, b: seq<Day>)
    ensures DaySet(a + b) == DaySet(a) + DaySet(b)
  {}

  // ---- adjacency ----

  ghost predicate IsAdjacency(dirty: set<Day>, links: set<Link>, adjacency: map<Day, set<Day>>) {
    && adjacency.Keys == dirty
    && (forall d, e :: d in dirty ==> (e in adjacency[d] <==> e in dirty && Adjacent(links, d, e)))
  }

  lemma AddLink(
    dirty: set<Day>, done: set<Link>, link: Link, before: map<Day, set<Day>>, after: map<Day, set<Day>>)
    requires IsAdjacency(dirty, done, before) && after.Keys == dirty
    requires forall d, e :: d in dirty ==>
      (e in after[d] <==> (e in before[d] || (e in dirty && (link == Link(d, e) || link == Link(e, d)))))
    ensures IsAdjacency(dirty, done + {link}, after)
  {
    forall d, e | d in dirty
      ensures e in after[d] <==> e in dirty && Adjacent(done + {link}, d, e)
    {
      assert e in before[d] <==> e in dirty && Adjacent(done, d, e);
    }
  }

  method BuildAdjacency(dirty: set<Day>, links: set<Link>) returns (adjacency: map<Day, set<Day>>)
    ensures IsAdjacency(dirty, links, adjacency)
  {
    adjacency := map d | d in dirty :: {};
    var rest := links;
    while rest != {}
      invariant rest <= links
      invariant IsAdjacency(dirty, links - rest, adjacency)
      decreases |rest|
    {
      var link :| link in rest;
      ghost var before := adjacency;
      if link.a in dirty && link.b in dirty {
        adjacency := adjacency[link.a := adjacency[link.a] + {link.b}];
        adjacency := adjacency[link.b := adjacency[link.b] + {link.a}];
      }
      AddLink(dirty, links - rest, link, before, adjacency);
      assert links - (rest - {link}) == (links - rest) + {link};
      rest := rest - {link};
    }
    assert links - rest == links;
  }

  // ---- one component ----

  /** The part of the walk reached so far: everything reached is connected to the start. */
  ghost predicate Reached(dirty: set<Day>, links: set<Link>, start: Day, reached: set<Day>) {
    forall d :: d in reached ==> Connected(dirty, links, start, d)
  }

  ghost predicate NeighboursSeen(dirty: set<Day>, links: set<Link>, done: set<Day>, seen: set<Day>) {
    forall c, e :: c in done && e in dirty && Adjacent(links, c, e) ==> e in seen
  }

  /** A walk that has nothing pending has collected one whole component. */
  lemma WalkComplete(dirty: set<Day>, links: set<Link>, start: Day, visited: set<Day>, seen: set<Day>)
    requires Closed(visited, dirty, links) && visited <= seen <= dirty
    requires start in seen - visited
    requires Reached(dirty, links, start, seen - visited)
    requires NeighboursSeen(dirty, links, seen - visited, seen)
    ensures seen - visited == Component(dirty, links, start)
    ensures Closed(seen, dirty, links)
  {
    var part := seen - visited;
    forall a, b | a in part && b in dirty && Adjacent(links, a, b) ensures b in part {
      assert Adjacent(links, b, a);
    }
    ComponentMinimal(part, dirty, links, start);
  }

  method Neighbours(
    dirty: set<Day>, links: set<Link>, adjacency: map<Day, set<Day>>, start: Day, current: Day,
    seen: set<Day>, pending: seq<Day>)
    returns (seen': set<Day>, pending': seq<Day>)
    requires IsAdjacency(dirty, links, adjacency) && current in dirty && seen <= dirty
    requires Connected(dirty, links, start, current)
    requires Distinct(pending) && DaySet(pending) <= seen
    ensures seen <= seen' <= dirty && pending <= pending'
    ensures Distinct(pending') && DaySet(pending') == DaySet(pending) + (seen' - seen)
    ensures Reached(dirty, links, start, seen' - seen)
    ensures NeighboursSeen(dirty, links, {current}, seen')
  {
    seen', pending' := seen, pending;
    var rest := adjacency[current];
    while rest != {}
      invariant rest <= adjacency[current]
      invariant seen <= seen' <= dirty && pending <= pending'
      invariant Distinct(pending') && DaySet(pending') == DaySet(pending) + (seen' - seen)
      invariant Reached(dirty, links, start, seen' - seen)
      invariant adjacency[current] - rest <= seen'
      decreases |rest|
    {
      NonEmpty(rest);
      var linkedDay :| linkedDay in rest;
      rest := rest - {linkedDay};
      if linkedDay !in seen' {
        ConnectedLink(dirty, links, current, linkedDay);
        ConnectedTrans(dirty, links, start, current, linkedDay);
        assert linkedDay !in DaySet(pending');
        DaySetConcat(pending', [linkedDay]);
        seen' := seen' + {linkedDay};
        pending' := pending' + [linkedDay];
      }
    }
  }

  method CollectComponent(
    dirty: set<Day>, links: set<Link>, adjacency: map<Day, set<Day>>, start: Day, visited: set<Day>)
    returns (component: seq<Day>, visited': set<Day>)
    requires IsAdjacency(dirty, links, adjacency)
    requires start in dirty && start !in visited && Closed(visited, dirty, links)
    ensures Distinct(component) && DaySet(component) == Component(dirty, links, start)
    ensures visited' == visited + DaySet(component) && Closed(visited', dirty, links)
  {
    component := [];
    var pending := [start];
    visited' := visited + {start};
    ConnectedSelf(dirty, links, start);
    while pending != []
      invariant visited <= visited' <= dirty && start in visited'
      invariant Distinct(component) && Distinct(pending)
      invariant DaySet(component) !! DaySet(pending)
      invariant DaySet(component) + DaySet(pending) == visited' - visited
      invariant Reached(dirty, links, start, visited' - visited)
      invariant NeighboursSeen(dirty, links, DaySet(component), visited')
      decreases |dirty| - |component|
    {
      var current := pending[|pending| - 1];
      var popped := pending[..|pending| - 1];
      assert pending == popped + [current];
      DaySetConcat(popped, [current]);
      assert current !in popped;
      DaySetConcat(component, [current]);
      assert current !in DaySet(component);
      component := component + [current];
      DistinctWithin(component, dirty);
      var seen, grown := Neighbours(dirty, links, adjacency, start, current, visited', popped);
      visited', pending := seen, grown;
    }
    assert DaySet(component) == visited' - visited;
    WalkComplete(dirty, links, start, visited, visited');
  }

  // ---- sorting ----

  method InsertDay(days: seq<Day>, d: Day) returns (sorted: seq<Day>)
    requires Ascending(days) && d !in days
    ensures Ascending(sorted) && DaySet(sorted) == DaySet(days) + {d}
  {
    var i := 0;
    while i < |days| && days[i] < d
      invariant 0 <= i <= |days|
      invariant i > 0 ==> days[i - 1] < d
    {
      i := i + 1;
    }
    sorted := days[..i] + [d] + days[i..];
    InsertAt(days, i, d);
  }

  lemma InsertAt(days: seq<Day>, i: nat, d: Day)
    requires Ascending(days) && i <= |days| && d !in days
    requires i > 0 ==> days[i - 1] < d
    requires i < |days| ==> d <= days[i]
    ensures Ascending(days[..i] + [d] + days[i..])
    ensures DaySet(days[..i] + [d] + days[i..]) == DaySet(days) + {d}
  {
    var left, right := days[..i], days[i..];
    assert days == left + right;
    DaySetConcat(left, right);
    DaySetConcat(left, [d]);
    DaySetConcat(left + [d], right);
    AscendingConcat(left, [d]);
    AscendingConcat(left + [d], right);
  }

  lemma AscendingConcat(a: seq<Day>, b: seq<Day>)
    requires Ascending(a) && Ascending(b)
    requires a != [] && b != [] ==> a[|a| - 1] < b[0]
    ensures Ascending(a + b)
  {
    var c := a + b;
    forall i, j | 0 <= i < j < |c| ensures c[i] < c[j] {
      if i < |a| <= j {
        assert a[i] <= a[|a| - 1] && b[0] <= b[j - |a|];
      }
    }
  }

  method SortDays(days: seq<Day>) returns (sorted: seq<Day>)
    requires Distinct(days)
    ensures Ascending(sorted) && DaySet(sorted) == DaySet(days)
  {
    sorted := [];
    for i := 0 to |days|
      invariant Ascending(sorted) && DaySet(sorted) == DaySet(days[..i])
    {
      assert days[..i + 1] == days[..i] + [days[i]];
      DaySetConcat(days[..i], [days[i]]);
      assert days[i] !in DaySet(days[..i]);
      sorted := InsertDay(sorted, days[i]);
    }
    assert days[..|days|] == days;
  }

  // ---- all components ----

  /** An ascending list holding exactly one component with no incomplete day. */
  ghost predicate IsPart(dirty: set<Day>, incomplete: set<Day>, links: set<Link>, part: seq<Day>) {
    && part != [] && Ascending(part)
    && Eligible(dirty, incomplete, links, Last(part))
    && DaySet(part) == Component(dirty, links, Last(part))
  }

  ghost predicate AreParts(dirty: set<Day>, incomplete: set<Day>, links: set<Link>, parts: seq<seq<Day>>) {
    forall i :: 0 <= i < |parts| ==> IsPart(dirty, incomplete, links, parts[i])
  }

  predicate InSome(parts: seq<seq<Day>>, d: Day) {
    exists i :: 0 <= i < |parts| && d in parts[i]
  }

  ghost predicate Covers(
    dirty: set<Day>, incomplete: set<Day>, links: set<Link>, parts: seq<seq<Day>>, days: set<Day>)
  {
    forall d {:trigger InSome(parts, d)} ::
      d in days && Eligible(dirty, incomplete, links, d) ==> InSome(parts, d)
  }

  predicate NewestFirst(parts: seq<seq<Day>>) {
    && (forall i :: 0 <= i < |parts| ==> parts[i] != [])
    && (forall i, j :: 0 <= i < j < |parts| ==> Last(parts[i]) > Last(parts[j]))
  }

  lemma ComponentIsPart(
    dirty: set<Day>, incomplete: set<Day>, links: set<Link>, start: Day, part: seq<Day>)
    requires start in dirty && Ascending(part) && DaySet(part) == Component(dirty, links, start)
    ensures part != []
    ensures DaySet(part) !! incomplete ==> IsPart(dirty, incomplete, links, part)
    ensures !(DaySet(part) !! incomplete) ==> forall d :: d in part ==> !Eligible(dirty, incomplete, links, d)
  {
    ConnectedSelf(dirty, links, start);
    assert start in DaySet(part);
    assert Last(part) in DaySet(part);
    ComponentShared(dirty, links, start, Last(part));
    forall d | d in part ensures Component(dirty, links, d) == Component(dirty, links, start) {
      assert d in DaySet(part);
      ComponentShared(dirty, links, start, d);
    }
  }

  /** Insert by the last day, the newest first. */
  method InsertPart(parts: seq<seq<Day>>, part: seq<Day>) returns (sorted: seq<seq<Day>>)
    requires NewestFirst(parts) && part != []
    requires forall i :: 0 <= i < |parts| ==> Last(parts[i]) != Last(part)
    ensures NewestFirst(sorted)
    ensures forall p :: p in sorted <==> p in parts || p == part
  {
    var i := 0;
    while i < |parts| && Last(parts[i]) > Last(part)
      invariant 0 <= i <= |parts|
      invariant forall k :: 0 <= k < i ==> Last(parts[k]) > Last(part)
    {
      i := i + 1;
    }
    sorted := parts[..i] + [part] + parts[i..];
    forall p | p in parts ensures p in sorted {
      var k :| 0 <= k < |parts| && parts[k] == p;
      assert sorted[if k < i then k else k + 1] == p;
    }
    assert sorted[i] == part;
  }

  lemma CoversMore(
    dirty: set<Day>, incomplete: set<Day>, links: set<Link>, parts: seq<seq<Day>>, parts': seq<seq<Day>>,
    days: set<Day>, part: seq<Day>)
    requires Covers(dirty, incomplete, links, parts, days)
    requires forall p :: p in parts ==> p in parts'
    requires part in parts' || (forall d :: d in part ==> !Eligible(dirty, incomplete, links, d))
    ensures Covers(dirty, incomplete, links, parts', days + DaySet(part))
  {
    forall d | d in days + DaySet(part) && Eligible(dirty, incomplete, links, d)
      ensures InSome(parts', d)
    {
      var p := part;
      if d in days {
        assert InSome(parts, d);
        var i :| 0 <= i < |parts| && d in parts[i];
        p := parts[i];
        assert p in parts;
      }
      assert p in parts' && d in p;
      var k :| 0 <= k < |parts'| && parts'[k] == p;
    }
  }

  lemma ComponentIsNew(dirty: set<Day>, links: set<Link>, visited: set<Day>, d: Day)
    requires Closed(visited, dirty, links) && d in dirty - visited
    ensures Component(dirty, links, d) !! visited
  {
    ClosedComplement(visited, dirty, links);
    ComponentMinimal(dirty - visited, dirty, links, d);
  }

  method EligibleParts(dirty: set<Day>, incomplete: set<Day>, links: set<Link>) returns (parts: seq<seq<Day>>)
    ensures AreParts(dirty, incomplete, links, parts) && NewestFirst(parts)
    ensures Covers(dirty, incomplete, links, parts, dirty)
  {
    var adjacency := BuildAdjacency(dirty, links);
    parts := [];
    var visited: set<Day> := {};
    var rest := dirty;
    while rest != {}
      invariant rest <= dirty && dirty - rest <= visited
      invariant Closed(visited, dirty, links)
      invariant AreParts(dirty, incomplete, links, parts) && NewestFirst(parts)
      invariant forall i :: 0 <= i < |parts| ==> DaySet(parts[i]) <= visited
      invariant Covers(dirty, incomplete, links, parts, visited)
      decreases |rest|
    {
      NonEmpty(rest);
      var dirtyDay :| dirtyDay in rest;
      rest := rest - {dirtyDay};
      if dirtyDay !in visited {
        ghost var before := visited;
        ghost var known := parts;
        var component: seq<Day>;
        component, visited := CollectComponent(dirty, links, adjacency, dirtyDay, visited);
        var part := SortDays(component);
        ComponentIsPart(dirty, incomplete, links, dirtyDay, part);
        ConnectedSelf(dirty, links, dirtyDay);
        ComponentIsNew(dirty, links, before, dirtyDay);
        assert dirtyDay in DaySet(component);
        if DaySet(part) !! incomplete {
          assert Last(part) in DaySet(part);
          forall i | 0 <= i < |parts| ensures Last(parts[i]) != Last(part) {
            assert Last(parts[i]) in DaySet(parts[i]);
          }
          parts := InsertPart(parts, part);
          assert part in parts;
          forall i | 0 <= i < |parts| ensures IsPart(dirty, incomplete, links, parts[i]) && DaySet(parts[i]) <= visited {
            assert parts[i] in parts;
          }
        }
        CoversMore(dirty, incomplete, links, known, parts, before, part);
      }
    }
  }

  // ---- packing ----

  lemma DayOfPart(dirty: set<Day>, incomplete: set<Day>, links: set<Link>, part: seq<Day>, d: Day)
    requires IsPart(dirty, incomplete, links, part) && d in part
    ensures d in dirty && d <= Last(part) && Component(dirty, links, d) == DaySet(part)
  {
    assert d in DaySet(part);
    ComponentShared(dirty, links, Last(part), d);
  }

  lemma LastInside(part: seq<Day>)
    requires part != []
    ensures Last(part) in part && Last(part) in DaySet(part)
  {}

  lemma PartsDisjoint(
    dirty: set<Day>, incomplete: set<Day>, links: set<Link>, left: seq<Day>, right: seq<Day>, d: Day)
    requires IsPart(dirty, incomplete, links, left) && IsPart(dirty, incomplete, links, right)
    requires Last(left) > Last(right) && d in right
    ensures d !in left
  {
    if d in left {
      DayOfPart(dirty, incomplete, links, left, d);
      DayOfPart(dirty, incomplete, links, right, d);
      LastInside(left);
    }
  }

  /** The dirty days of no part before position `i`. */
  ghost function Remaining(dirty: set<Day>, parts: seq<seq<Day>>, i: nat): set<Day>
    requires i <= |parts|
  {
    if i == 0 then dirty else Remaining(dirty, parts, i - 1) - DaySet(parts[i - 1])
  }

  lemma {:induction false} InRemaining(dirty: set<Day>, parts: seq<seq<Day>>, i: nat, d: Day)
    requires i <= |parts| && d in dirty
    ensures d in Remaining(dirty, parts, i) <==> forall k :: 0 <= k < i ==> d !in parts[k]
  {
    if i > 0 {
      InRemaining(dirty, parts, i - 1, d);
      assert d in DaySet(parts[i - 1]) <==> d in parts[i - 1];
    }
  }

  lemma PartInRemaining(
    dirty: set<Day>, incomplete: set<Day>, links: set<Link>, parts: seq<seq<Day>>, i: nat)
    requires AreParts(dirty, incomplete, links, parts) && NewestFirst(parts) && i < |parts|
    ensures DaySet(parts[i]) <= Remaining(dirty, parts, i)
  {
    forall d | d in DaySet(parts[i]) ensures d in Remaining(dirty, parts, i) {
      assert IsPart(dirty, incomplete, links, parts[i]);
      DayOfPart(dirty, incomplete, links, parts[i], d);
      forall k | 0 <= k < i ensures d !in parts[k] {
        assert IsPart(dirty, incomplete, links, parts[k]);
        PartsDisjoint(dirty, incomplete, links, parts[k], parts[i], d);
      }
      InRemaining(dirty, parts, i, d);
    }
  }

  /** The next part in the list is the newest candidate among the days not yet considered. */
  lemma NextPart(dirty: set<Day>, incomplete: set<Day>, links: set<Link>, parts: seq<seq<Day>>, i: nat)
    requires AreParts(dirty, incomplete, links, parts) && NewestFirst(parts)
    requires Covers(dirty, incomplete, links, parts, dirty)
    requires i <= |parts|
    ensures
      var candidates := EligibleIn(dirty, incomplete, links, Remaining(dirty, parts, i));
      if i == |parts| then candidates == {} else IsLatest(candidates, Last(parts[i]))
  {
    var candidates := EligibleIn(dirty, incomplete, links, Remaining(dirty, parts, i));
    forall d | d in candidates ensures i < |parts| && d <= Last(parts[i]) {
      assert InSome(parts, d);
      var k :| 0 <= k < |parts| && d in parts[k];
      InRemaining(dirty, parts, i, d);
      assert IsPart(dirty, incomplete, links, parts[k]);
      DayOfPart(dirty, incomplete, links, parts[k], d);
    }
    if i < |parts| {
      PartInRemaining(dirty, incomplete, links, parts, i);
      assert IsPart(dirty, incomplete, links, parts[i]) && Last(parts[i]) in DaySet(parts[i]);
    }
  }

  lemma PackUnfold(
    dirty: set<Day>, incomplete: set<Day>, links: set<Link>, rest: set<Day>, selected: set<Day>, m: Day)
    requires IsLatest(EligibleIn(dirty, incomplete, links, rest), m)
    ensures
      var part := Component(dirty, links, m);
      Pack(dirty, incomplete, links, rest, selected) ==
      if selected == {} && |part| > MAX_SNAPSHOT_DAYS then part
      else if |selected| + |part| <= MAX_SNAPSHOT_DAYS then Pack(dirty, incomplete, links, rest - part, selected + part)
      else Pack(dirty, incomplete, links, rest - part, selected)
  {
    assert Latest(EligibleIn(dirty, incomplete, links, rest)) == m;
  }

  lemma DistinctConcat(a: seq<Day>, b: seq<Day>)
    requires Distinct(a) && Distinct(b) && DaySet(a) !! DaySet(b)
    ensures Distinct(a + b)
  {
    var c := a + b;
    forall i, j | 0 <= i < j < |c| ensures c[i] != c[j] {
      if i < |a| <= j {
        assert a[i] in DaySet(a) && b[j - |a|] in DaySet(b);
      }
    }
  }

  /** The snapshot's days: ascending, without duplicates, and exactly the reference selection. */
  method SelectSnapshotDirtyDays(dirty: set<Day>, incomplete: set<Day>, links: set<Link>) returns (days: seq<Day>)
    ensures Ascending(days)
    ensures DaySet(days) == Select(dirty, incomplete, links)
  {
    var parts := EligibleParts(dirty, incomplete, links);
    var selected: seq<Day> := [];
    for i := 0 to |parts|
      invariant Distinct(selected) && DaySet(selected) !! Remaining(dirty, parts, i)
      invariant Pack(dirty, incomplete, links, Remaining(dirty, parts, i), DaySet(selected))
        == Select(dirty, incomplete, links)
    {
      var part := parts[i];
      assert IsPart(dirty, incomplete, links, part);
      NextPart(dirty, incomplete, links, parts, i);
      PackUnfold(dirty, incomplete, links, Remaining(dirty, parts, i), DaySet(selected), Last(part));
      AscendingIsDistinct(part);
      DistinctCardinality(selected);
      PartInRemaining(dirty, incomplete, links, parts, i);
      if selected == [] && |part| > MAX_SNAPSHOT_DAYS {
        return part;
      }
      if |selected| + |part| <= MAX_SNAPSHOT_DAYS {
        DaySetConcat(selected, part);
        DistinctConcat(selected, part);
        selected := selected + part;
      }
    }
    NextPart(dirty, incomplete, links, parts, |parts|);
    days := SortDays(selected);
  }
}
