/**
 * The graph of dirty days: connectivity, components, and the set of days a snapshot captures.
 * `Select` is the reference definition that the worklist search must compute.
 */
module DayGraph {
  import opened Contract

  ghost predicate Adjacent(links: set<Link>, a: Day, b: Day) {
    Link(a, b) in links || Link(b, a) in links
  }

  ghost predicate Path(nodes: set<Day>, links: set<Link>, p: seq<Day>) {
    && |p| > 0
    && (forall i :: 0 <= i < |p| ==> p[i] in nodes)
    && (forall i :: 0 <= i < |p| - 1 ==> Adjacent(links, p[i], p[i + 1]))
  }

  ghost predicate PathFromTo(nodes: set<Day>, links: set<Link>, p: seq<Day>, a: Day, b: Day) {
    Path(nodes, links, p) && p[0] == a && p[|p| - 1] == b
  }

  /** Both days are nodes, and a chain of links between nodes joins them. */
  ghost predicate Connected(nodes: set<Day>, links: set<Link>, a: Day, b: Day) {
    exists p :: PathFromTo(nodes, links, p, a, b)
  }

  /** No link joins a day of `part` with a node outside it. */
  ghost predicate Closed(part: set<Day>, nodes: set<Day>, links: set<Link>) {
    && part <= nodes
    && (forall a, b {:trigger Adjacent(links, a, b)} ::
          a in part && b in nodes && Adjacent(links, a, b) ==> b in part)
  }

  ghost function Component(nodes: set<Day>, links: set<Link>, d: Day): set<Day> {
    set e | e in nodes && Connected(nodes, links, d, e)
  }

  /** A day whose whole component holds no incomplete day. */
  ghost predicate Eligible(nodes: set<Day>, incomplete: set<Day>, links: set<Link>, d: Day) {
    d in nodes && Component(nodes, links, d) !! incomplete
  }

  // ---- connectivity ----

  lemma ConnectedSelf(nodes: set<Day>, links: set<Link>, a: Day)
    requires a in nodes
    ensures Connected(nodes, links, a, a)
  {
    assert PathFromTo(nodes, links, [a], a, a);
  }

  lemma ConnectedLink(nodes: set<Day>, links: set<Link>, a: Day, b: Day)
    requires a in nodes && b in nodes && Adjacent(links, a, b)
    ensures Connected(nodes, links, a, b)
  {
    assert PathFromTo(nodes, links, [a, b], a, b);
  }

  lemma ConnectedEnds(nodes: set<Day>, links: set<Link>, a: Day, b: Day)
    requires Connected(nodes, links, a, b)
    ensures a in nodes && b in nodes
  {
    var p :| PathFromTo(nodes, links, p, a, b);
    assert p[0] in nodes && p[|p| - 1] in nodes;
  }

  lemma ConnectedSym(nodes: set<Day>, links: set<Link>, a: Day, b: Day)
    requires Connected(nodes, links, a, b)
    ensures Connected(nodes, links, b, a)
  {
    var p :| PathFromTo(nodes, links, p, a, b);
    var q := seq(|p|, i requires 0 <= i < |p| => p[|p| - 1 - i]);
    forall i | 0 <= i < |q| - 1 ensures Adjacent(links, q[i], q[i + 1]) {
      assert Adjacent(links, p[|p| - 2 - i], p[|p| - 2 - i + 1]);
    }
    assert PathFromTo(nodes, links, q, b, a);
  }

  lemma ConnectedTrans(nodes: set<Day>, links: set<Link>, a: Day, b: Day, c: Day)
    requires Connected(nodes, links, a, b) && Connected(nodes, links, b, c)
    ensures Connected(nodes, links, a, c)
  {
    var p :| PathFromTo(nodes, links, p, a, b);
    var q :| PathFromTo(nodes, links, q, b, c);
    var r := p + q[1..];
    forall i | 0 <= i < |r| - 1 ensures Adjacent(links, r[i], r[i + 1]) {
      if i < |p| - 1 {
        assert Adjacent(links, p[i], p[i + 1]);
      } else {
        assert Adjacent(links, q[i - (|p| - 1)], q[i - (|p| - 1) + 1]);
      }
    }
    assert PathFromTo(nodes, links, r, a, c);
  }

  /** More nodes and more links keep what is connected. */
  lemma ConnectedMono(nodes: set<Day>, links: set<Link>, nodes': set<Day>, links': set<Link>, a: Day, b: Day)
    requires nodes <= nodes' && links <= links'
    requires Connected(nodes, links, a, b)
    ensures Connected(nodes', links', a, b)
  {
    var p :| PathFromTo(nodes, links, p, a, b);
    assert PathFromTo(nodes', links', p, a, b);
  }

  lemma {:induction false} PathStaysClosed(part: set<Day>, nodes: set<Day>, links: set<Link>, p: seq<Day>, i: nat)
    requires Closed(part, nodes, links) && Path(nodes, links, p) && p[0] in part && i < |p|
    ensures p[i] in part
  {
    if i > 0 {
      PathStaysClosed(part, nodes, links, p, i - 1);
      assert Adjacent(links, p[i - 1], p[i - 1 + 1]);
    }
  }

  lemma ConnectedStaysClosed(part: set<Day>, nodes: set<Day>, links: set<Link>, a: Day, b: Day)
    requires Closed(part, nodes, links) && a in part && Connected(nodes, links, a, b)
    ensures b in part
  {
    var p :| PathFromTo(nodes, links, p, a, b);
    PathStaysClosed(part, nodes, links, p, |p| - 1);
  }

  /**
   * Dropping a closed part with the links inside it keeps every connection outside it.
   * This is what finishing a snapshot does to the dirty graph.
   */
  lemma ConnectedOutsideClosed(part: set<Day>, nodes: set<Day>, links: set<Link>, links': set<Link>, a: Day, b: Day)
    requires Closed(part, nodes, links) && a !in part && Connected(nodes, links, a, b)
    requires forall l :: l in links && !(l.a in part && l.b in part) ==> l in links'
    ensures b !in part && Connected(nodes - part, links', a, b)
  {
    var p :| PathFromTo(nodes, links, p, a, b);
    forall i | 0 <= i < |p| ensures p[i] !in part {
      if p[i] in part {
        ConnectedPrefix(nodes, links, p, i);
        ConnectedSym(nodes, links, p[0], p[i]);
        ConnectedStaysClosed(part, nodes, links, p[i], p[0]);
      }
    }
    forall i | 0 <= i < |p| - 1 ensures Adjacent(links', p[i], p[i + 1]) {
      assert Adjacent(links, p[i], p[i + 1]);
    }
    assert PathFromTo(nodes - part, links', p, a, b);
  }

  lemma ConnectedPrefix(nodes: set<Day>, links: set<Link>, p: seq<Day>, i: nat)
    requires Path(nodes, links, p) && i < |p|
    ensures Connected(nodes, links, p[0], p[i])
  {
    assert PathFromTo(nodes, links, p[..i + 1], p[0], p[i]);
  }

  // ---- components ----

  lemma ComponentClosed(nodes: set<Day>, links: set<Link>, d: Day)
    ensures Closed(Component(nodes, links, d), nodes, links)
  {
    forall a, b | a in Component(nodes, links, d) && b in nodes && Adjacent(links, a, b)
      ensures b in Component(nodes, links, d)
    {
      ConnectedLink(nodes, links, a, b);
      ConnectedTrans(nodes, links, d, a, b);
    }
  }

  lemma ComponentMinimal(part: set<Day>, nodes: set<Day>, links: set<Link>, d: Day)
    requires Closed(part, nodes, links) && d in part
    ensures Component(nodes, links, d) <= part
  {
    forall e | e in Component(nodes, links, d) ensures e in part {
      ConnectedStaysClosed(part, nodes, links, d, e);
    }
  }

  /** A component is the component of each of its days. */
  lemma ComponentShared(nodes: set<Day>, links: set<Link>, d: Day, e: Day)
    requires e in Component(nodes, links, d)
    ensures Component(nodes, links, e) == Component(nodes, links, d)
  {
    ConnectedEnds(nodes, links, d, e);
    ComponentClosed(nodes, links, d);
    ComponentMinimal(Component(nodes, links, d), nodes, links, e);
    ConnectedSym(nodes, links, d, e);
    ComponentClosed(nodes, links, e);
    assert d in Component(nodes, links, e);
    ComponentMinimal(Component(nodes, links, e), nodes, links, d);
  }

  lemma ClosedComplement(part: set<Day>, nodes: set<Day>, links: set<Link>)
    requires Closed(part, nodes, links)
    ensures Closed(nodes - part, nodes, links)
  {
    ClosedDifference(nodes, part, nodes, links);
  }

  lemma ClosedDifference(whole: set<Day>, part: set<Day>, nodes: set<Day>, links: set<Link>)
    requires Closed(whole, nodes, links) && Closed(part, nodes, links)
    ensures Closed(whole - part, nodes, links)
  {
    forall a, b | a in whole - part && b in nodes && Adjacent(links, a, b) ensures b in whole - part {
      assert Adjacent(links, b, a);
    }
  }

  // ---- the captured set ----

  ghost predicate IsLatest(days: set<Day>, d: Day) {
    d in days && forall e :: e in days ==> e <= d
  }

  lemma {:induction false} LatestExists(days: set<Day>)
    requires days != {}
    ensures exists m :: IsLatest(days, m)
    decreases days
  {
    NonEmpty(days);
    var x :| x in days;
    var rest := days - {x};
    var m := x;
    if rest != {} {
      LatestExists(rest);
      var y :| IsLatest(rest, y);
      m := if x < y then y else x;
    }
    forall e | e in days ensures e <= m {
      assert e == x || e in rest;
    }
    assert IsLatest(days, m);
  }

  ghost function Latest(days: set<Day>): (m: Day)
    requires days != {}
    ensures IsLatest(days, m)
  {
    LatestExists(days);
    var m :| IsLatest(days, m);
    m
  }

  ghost function EligibleIn(nodes: set<Day>, incomplete: set<Day>, links: set<Link>, rest: set<Day>): set<Day> {
    set d | d in rest && Eligible(nodes, incomplete, links, d)
  }

  /**
   * Greedy packing, newest component first: an oversized newest component is taken alone, and
   * otherwise every component that still fits in seven days is added.
   */
  ghost function Pack(nodes: set<Day>, incomplete: set<Day>, links: set<Link>, rest: set<Day>, selected: set<Day>): set<Day>
    decreases |rest|
  {
    var candidates := EligibleIn(nodes, incomplete, links, rest);
    if candidates == {} then selected
    else
      var m := Latest(candidates);
      var part := Component(nodes, links, m);
      ConnectedSelf(nodes, links, m);
      assert m in part && m in rest && rest - part < rest;
      CardinalityDrops(rest - part, rest);
      if selected == {} && |part| > MAX_SNAPSHOT_DAYS then part
      else if |selected| + |part| <= MAX_SNAPSHOT_DAYS then
        Pack(nodes, incomplete, links, rest - part, selected + part)
      else
        Pack(nodes, incomplete, links, rest - part, selected)
  }

  ghost function Select(nodes: set<Day>, incomplete: set<Day>, links: set<Link>): set<Day> {
    Pack(nodes, incomplete, links, nodes, {})
  }

  /**
   * What a capture promises: whole components and no incomplete day; empty only when no component
   * is eligible; the newest eligible component is always in it; at most seven days unless it is
   * that component alone; and every eligible component left out would not have fitted.
   */
  ghost predicate IsCapture(nodes: set<Day>, incomplete: set<Day>, links: set<Link>, captured: set<Day>) {
    var candidates := EligibleIn(nodes, incomplete, links, nodes);
    && Closed(captured, nodes, links)
    && captured !! incomplete
    && (captured == {} <==> candidates == {})
    && (candidates != {} ==>
          var newest := Component(nodes, links, Latest(candidates));
          newest <= captured && (|captured| <= MAX_SNAPSHOT_DAYS || captured == newest))
    && (forall d :: d in candidates && d !in captured ==>
          |captured| + |Component(nodes, links, d)| > MAX_SNAPSHOT_DAYS)
  }

  ghost predicate LeftOutDoNotFit(
    nodes: set<Day>, incomplete: set<Day>, links: set<Link>, inside: set<Day>, selected: set<Day>)
  {
    forall d :: Eligible(nodes, incomplete, links, d) && d !in inside ==>
      |selected| + |Component(nodes, links, d)| > MAX_SNAPSHOT_DAYS
  }

  /** The graph facts one packing step needs about the newest candidate's component. */
  lemma PackStep(
    nodes: set<Day>, incomplete: set<Day>, links: set<Link>, rest: set<Day>, selected: set<Day>, m: Day)
    requires Closed(rest, nodes, links) && Closed(selected, nodes, links) && rest !! selected
    requires m in EligibleIn(nodes, incomplete, links, rest)
    ensures
      var part := Component(nodes, links, m);
      && m in part && part <= rest && part !! incomplete
      && Closed(part, nodes, links) && Closed(rest - part, nodes, links) && Closed(selected + part, nodes, links)
      && |selected + part| == |selected| + |part| && |rest - part| < |rest|
  {
    var part := Component(nodes, links, m);
    ConnectedSelf(nodes, links, m);
    ComponentClosed(nodes, links, m);
    ComponentMinimal(rest, nodes, links, m);
    ClosedDifference(rest, part, nodes, links);
    CardinalityDrops(rest - part, rest);
  }

  lemma LeftOutStep(
    nodes: set<Day>, incomplete: set<Day>, links: set<Link>, rest: set<Day>, selected: set<Day>, m: Day)
    requires LeftOutDoNotFit(nodes, incomplete, links, rest + selected, selected)
    ensures
      var part := Component(nodes, links, m);
      && (part <= rest ==>
            LeftOutDoNotFit(nodes, incomplete, links, rest - part + (selected + part), selected + part))
      && (|selected| + |part| > MAX_SNAPSHOT_DAYS ==>
            LeftOutDoNotFit(nodes, incomplete, links, rest - part + selected, selected))
  {
    var part := Component(nodes, links, m);
    SubsetCardinality(selected, selected + part);
    forall d | d in part ensures Component(nodes, links, d) == part {
      ComponentShared(nodes, links, m, d);
    }
  }

  lemma LeftOutDone(nodes: set<Day>, incomplete: set<Day>, links: set<Link>, rest: set<Day>, selected: set<Day>)
    requires LeftOutDoNotFit(nodes, incomplete, links, rest + selected, selected)
    requires EligibleIn(nodes, incomplete, links, rest) == {}
    ensures LeftOutDoNotFit(nodes, incomplete, links, selected, selected)
  {
    forall d | Eligible(nodes, incomplete, links, d) && d !in selected ensures d !in rest {
      assert d in rest ==> d in EligibleIn(nodes, incomplete, links, rest);
    }
  }

  /** What packing guarantees of its result, given what was already selected. */
  ghost predicate Packed(
    nodes: set<Day>, incomplete: set<Day>, links: set<Link>, rest: set<Day>, selected: set<Day>, packed: set<Day>)
  {
    var candidates := EligibleIn(nodes, incomplete, links, rest);
    && Closed(packed, nodes, links) && packed !! incomplete
    && selected <= packed <= selected + rest
    && LeftOutDoNotFit(nodes, incomplete, links, packed, packed)
    && (|packed| <= MAX_SNAPSHOT_DAYS ||
        (selected == {} && candidates != {} && packed == Component(nodes, links, Latest(candidates))))
    && (selected == {} && candidates != {} ==> Component(nodes, links, Latest(candidates)) <= packed)
  }

  /** What the rest of the packing guarantees carries back over one step. */
  lemma PackedBack(
    nodes: set<Day>, incomplete: set<Day>, links: set<Link>, rest: set<Day>, selected: set<Day>,
    m: Day, selected': set<Day>, packed: set<Day>)
    requires IsLatest(EligibleIn(nodes, incomplete, links, rest), m)
    requires Component(nodes, links, m) <= rest && m in Component(nodes, links, m)
    requires selected <= selected' <= selected + Component(nodes, links, m) && selected' != {}
    requires selected == {} ==> Component(nodes, links, m) <= selected'
    requires Packed(nodes, incomplete, links, rest - Component(nodes, links, m), selected', packed)
    ensures Packed(nodes, incomplete, links, rest, selected, packed)
  {
    assert Latest(EligibleIn(nodes, incomplete, links, rest)) == m;
  }

  lemma PackedAlone(nodes: set<Day>, incomplete: set<Day>, links: set<Link>, rest: set<Day>, m: Day)
    requires IsLatest(EligibleIn(nodes, incomplete, links, rest), m)
    requires Closed(rest, nodes, links) && |Component(nodes, links, m)| > MAX_SNAPSHOT_DAYS
    ensures Packed(nodes, incomplete, links, rest, {}, Component(nodes, links, m))
  {
    PackStep(nodes, incomplete, links, rest, {}, m);
    assert Latest(EligibleIn(nodes, incomplete, links, rest)) == m;
  }

  lemma {:induction false} PackSound(
    nodes: set<Day>, incomplete: set<Day>, links: set<Link>, rest: set<Day>, selected: set<Day>)
    requires Closed(rest, nodes, links) && Closed(selected, nodes, links)
    requires rest !! selected && selected !! incomplete && |selected| <= MAX_SNAPSHOT_DAYS
    requires LeftOutDoNotFit(nodes, incomplete, links, rest + selected, selected)
    ensures Packed(nodes, incomplete, links, rest, selected, Pack(nodes, incomplete, links, rest, selected))
    decreases |rest|
  {
    var candidates := EligibleIn(nodes, incomplete, links, rest);
    if candidates == {} {
      LeftOutDone(nodes, incomplete, links, rest, selected);
    } else {
      var m := Latest(candidates);
      var part := Component(nodes, links, m);
      var packed := Pack(nodes, incomplete, links, rest, selected);
      PackStep(nodes, incomplete, links, rest, selected, m);
      LeftOutStep(nodes, incomplete, links, rest, selected, m);
      if selected == {} && |part| > MAX_SNAPSHOT_DAYS {
        PackedAlone(nodes, incomplete, links, rest, m);
      } else if |selected| + |part| <= MAX_SNAPSHOT_DAYS {
        PackSound(nodes, incomplete, links, rest - part, selected + part);
        PackedBack(nodes, incomplete, links, rest, selected, m, selected + part, packed);
      } else {
        PackSound(nodes, incomplete, links, rest - part, selected);
        PackedBack(nodes, incomplete, links, rest, selected, m, selected, packed);
      }
    }
  }

  lemma SelectIsCapture(nodes: set<Day>, incomplete: set<Day>, links: set<Link>)
    ensures IsCapture(nodes, incomplete, links, Select(nodes, incomplete, links))
  {
    PackSound(nodes, incomplete, links, nodes, {});
    var candidates := EligibleIn(nodes, incomplete, links, nodes);
    if candidates != {} {
      ConnectedSelf(nodes, links, Latest(candidates));
    }
  }

  // ---- draining ----

  /** The links that survive once the days of `part` are published. */
  ghost function LinksOutside(links: set<Link>, part: set<Day>): set<Link> {
    set l | l in links && !(l.a in part && l.b in part)
  }

  lemma ComponentOutside(nodes: set<Day>, links: set<Link>, part: set<Day>, d: Day)
    requires Closed(part, nodes, links) && d in nodes - part
    ensures Component(nodes - part, LinksOutside(links, part), d) == Component(nodes, links, d)
  {
    forall e | e in nodes ensures e in Component(nodes - part, LinksOutside(links, part), d) <==> e in Component(nodes, links, d) {
      if Connected(nodes, links, d, e) {
        ConnectedOutsideClosed(part, nodes, links, LinksOutside(links, part), d, e);
      }
      if e in nodes - part && Connected(nodes - part, LinksOutside(links, part), d, e) {
        ConnectedMono(nodes - part, LinksOutside(links, part), nodes, links, d, e);
      }
    }
  }

  /** The days that no round can publish: those joined with an incomplete day. */
  ghost function Stuck(nodes: set<Day>, incomplete: set<Day>, links: set<Link>): set<Day> {
    set d | d in nodes && !(Component(nodes, links, d) !! incomplete)
  }

  lemma SelectEmptyIsStuck(nodes: set<Day>, incomplete: set<Day>, links: set<Link>)
    requires Select(nodes, incomplete, links) == {}
    ensures Stuck(nodes, incomplete, links) == nodes
  {
    SelectIsCapture(nodes, incomplete, links);
    forall d | d in nodes ensures d in Stuck(nodes, incomplete, links) {
      assert d !in EligibleIn(nodes, incomplete, links, nodes);
    }
  }

  lemma SelectIsClosed(nodes: set<Day>, incomplete: set<Day>, links: set<Link>)
    ensures
      var captured := Select(nodes, incomplete, links);
      && Closed(captured, nodes, links) && captured !! incomplete
      && (captured != {} ==> |nodes - captured| < |nodes|)
  {
    SelectIsCapture(nodes, incomplete, links);
    var captured := Select(nodes, incomplete, links);
    if captured != {} {
      CardinalityDrops(nodes - captured, nodes);
    }
  }

  /** The dirty days left after capture-and-publish rounds, until a round finds nothing to capture. */
  ghost function Drained(nodes: set<Day>, incomplete: set<Day>, links: set<Link>): set<Day>
    decreases |nodes|
  {
    var captured := Select(nodes, incomplete, links);
    if captured == {} then nodes
    else
      SelectIsClosed(nodes, incomplete, links);
      Drained(nodes - captured, incomplete, LinksOutside(links, captured))
  }

  lemma StuckOutside(nodes: set<Day>, incomplete: set<Day>, links: set<Link>, captured: set<Day>)
    requires Closed(captured, nodes, links) && captured !! incomplete
    ensures Stuck(nodes - captured, incomplete, LinksOutside(links, captured)) == Stuck(nodes, incomplete, links)
  {
    forall d | d in nodes
      ensures d in Stuck(nodes - captured, incomplete, LinksOutside(links, captured)) <==> d in Stuck(nodes, incomplete, links)
    {
      if d in captured {
        ComponentMinimal(captured, nodes, links, d);
      } else {
        ComponentOutside(nodes, links, captured, d);
      }
    }
  }

  lemma {:induction false} DrainEndsWithStuckDays(nodes: set<Day>, incomplete: set<Day>, links: set<Link>)
    ensures Drained(nodes, incomplete, links) == Stuck(nodes, incomplete, links)
    decreases |nodes|
  {
    var captured := Select(nodes, incomplete, links);
    if captured == {} {
      SelectEmptyIsStuck(nodes, incomplete, links);
    } else {
      SelectIsClosed(nodes, incomplete, links);
      StuckOutside(nodes, incomplete, links, captured);
      DrainEndsWithStuckDays(nodes - captured, incomplete, LinksOutside(links, captured));
    }
  }

  lemma NonEmpty(days: set<Day>)
    requires days != {}
    ensures exists d :: d in days
  {
    if forall d :: d !in days {
      assert false;
    }
  }

  lemma CardinalityDrops<T>(small: set<T>, large: set<T>)
    requires small < large
    ensures |small| < |large|
  {
    var x :| x in large && x !in small;
    SubsetCardinality(small, large - {x});
  }

  lemma SubsetCardinality<T>(small: set<T>, large: set<T>)
    requires small <= large
    ensures |small| <= |large|
  {
    assert large == small + (large - small);
  }
}
