/**
 * The global limit on concurrent snapshots. One object holds two slots for all organizations and
 * reaps a slot after separate reads of its coordinator, between which every coordinator may move.
 * `Await` stands for such a pause: callers know of it only that the coordinators took some allowed
 * calls.
 */
module GlobalCapacity {
  import opened Contract
  import opened CopyPlan
  import opened CoordinatorModel
  import opened CoordinatorInvariants
  import opened CoordinatorRuns
  import opened CoordinatorSafety
  import DayGraph

  datatype SnapshotKey = SnapshotKey(org: string, generation: int)

  datatype OrgCall = OrgCall(org: string, call: Call, clock: Clock)

  const MAX_SNAPSHOTS := 2

  /** A coordinator that was never called has empty tables. */
  function Org(orgs: map<string, State>, org: string): State {
    if org in orgs then orgs[org] else INITIAL
  }

  ghost predicate OrgsInv(orgs: map<string, State>) {
    forall org :: org in orgs ==> Inv(orgs[org])
  }

  /** An intent is recorded only for a generation whose slot was granted: what a runner keeps to. */
  predicate Granted(granted: set<SnapshotKey>, org: string, call: Call) {
    call.OnCopy? && call.copy.CallRecordIntent? ==> SnapshotKey(org, call.copy.key.generation) in granted
  }

  predicate AllowedCall(granted: set<SnapshotKey>, c: OrgCall) {
    Granted(granted, c.org, c.call)
  }

  ghost function Called(orgs: map<string, State>, c: OrgCall): map<string, State> {
    orgs[c.org := Step(Org(orgs, c.org), c.call, c.clock).state]
  }

  ghost function CalledAll(orgs: map<string, State>, calls: seq<OrgCall>): map<string, State> {
    if calls == [] then orgs else Called(CalledAll(orgs, calls[..|calls| - 1]), calls[|calls| - 1])
  }

  ghost predicate Evolved(granted: set<SnapshotKey>, before: map<string, State>, after: map<string, State>) {
    exists calls :: (forall c :: c in calls ==> AllowedCall(granted, c)) && after == CalledAll(before, calls)
  }

  /** The (organization, generation) pairs with an outstanding Copy intent. */
  function Outstanding(orgs: map<string, State>): set<SnapshotKey> {
    set org, key | org in orgs && key in orgs[org].intents :: SnapshotKey(org, key.generation)
  }

  predicate HasIntent(c: State, generation: int) {
    exists key :: key in c.intents && key.generation == generation
  }

  /** Ended, with no Copy left outstanding. */
  predicate Terminal(orgs: map<string, State>, key: SnapshotKey) {
    Past(Org(orgs, key.org), key.generation) && !HasIntent(Org(orgs, key.org), key.generation)
  }

  /** What a read of a coordinator's counters may see: its tables at some moment since, once read. */
  ghost predicate Seen(granted: set<SnapshotKey>, before: map<string, State>, org: string, read: State) {
    exists mid, clock {:trigger Evolved(granted, before, mid), GetStats(Org(mid, org), clock)} ::
      Evolved(granted, before, mid) && read == GetStats(Org(mid, org), clock).state
  }

  /** The read shows the generation in snapshot. */
  predicate ShowsActive(read: State, generation: int) {
    read.erasureStartedAt.None? && read.phase.Snapshot? && read.activeGeneration == Some(generation)
  }

  function Residents(slots: map<nat, SnapshotKey>): set<SnapshotKey> {
    set slot | slot in slots :: slots[slot]
  }

  /** Every outstanding intent belongs to a resident, and every granted pair is resident or over. */
  ghost predicate Guarded(orgs: map<string, State>, residents: set<SnapshotKey>, granted: set<SnapshotKey>) {
    && OrgsInv(orgs)
    && Outstanding(orgs) <= residents
    && (forall key :: key in granted ==> key in residents || Past(Org(orgs, key.org), key.generation))
  }

  // ---- what coordinators do between two reads ----

  lemma OrgInv(orgs: map<string, State>, org: string)
    requires OrgsInv(orgs)
    ensures Inv(Org(orgs, org))
  {
    InitialInv();
  }

  lemma PastStep(orgs: map<string, State>, c: OrgCall, key: SnapshotKey)
    requires OrgsInv(orgs) && Past(Org(orgs, key.org), key.generation)
    ensures Past(Org(Called(orgs, c), key.org), key.generation)
  {
    OrgInv(orgs, c.org);
    StepMoves(Org(orgs, c.org), c.call, c.clock);
  }

  /** A call adds an intent only for the active generation of a granted pair. */
  lemma NewIntents(orgs: map<string, State>, c: OrgCall, granted: set<SnapshotKey>, key: CopyKey)
    requires OrgsInv(orgs) && AllowedCall(granted, c)
    requires key in Step(Org(orgs, c.org), c.call, c.clock).state.intents && key !in Org(orgs, c.org).intents
    ensures SnapshotKey(c.org, key.generation) in granted
    ensures Org(orgs, c.org).activeGeneration == Some(key.generation)
  {
    OrgInv(orgs, c.org);
    StepEffects(Org(orgs, c.org), c.call, c.clock);
  }

  lemma TerminalStep(orgs: map<string, State>, c: OrgCall, granted: set<SnapshotKey>, key: SnapshotKey)
    requires OrgsInv(orgs) && AllowedCall(granted, c) && Terminal(orgs, key)
    ensures Terminal(Called(orgs, c), key)
  {
    PastStep(orgs, c, key);
    if key.org == c.org {
      forall k | k in Step(Org(orgs, c.org), c.call, c.clock).state.intents ensures k.generation != key.generation {
        if k !in Org(orgs, c.org).intents {
          NewIntents(orgs, c, granted, k);
        }
      }
    }
  }

  lemma OutstandingStep(orgs: map<string, State>, c: OrgCall, residents: set<SnapshotKey>, granted: set<SnapshotKey>)
    requires Guarded(orgs, residents, granted) && AllowedCall(granted, c)
    ensures Outstanding(Called(orgs, c)) <= residents
  {
    var after := Called(orgs, c);
    forall org, k | org in after && k in after[org].intents ensures SnapshotKey(org, k.generation) in residents {
      if org == c.org && k !in Org(orgs, org).intents {
        NewIntents(orgs, c, granted, k);
      } else {
        assert org in orgs && k in orgs[org].intents;
        assert SnapshotKey(org, k.generation) in Outstanding(orgs);
      }
    }
  }

  lemma OrgsInvStep(orgs: map<string, State>, c: OrgCall)
    requires OrgsInv(orgs)
    ensures OrgsInv(Called(orgs, c))
  {
    OrgInv(orgs, c.org);
    StepKeepsInv(Org(orgs, c.org), c.call, c.clock);
  }

  lemma GuardedStep(orgs: map<string, State>, c: OrgCall, residents: set<SnapshotKey>, granted: set<SnapshotKey>)
    requires Guarded(orgs, residents, granted) && AllowedCall(granted, c)
    ensures Guarded(Called(orgs, c), residents, granted)
  {
    OrgsInvStep(orgs, c);
    OutstandingStep(orgs, c, residents, granted);
    forall key | key in granted && key !in residents ensures Past(Org(Called(orgs, c), key.org), key.generation) {
      PastStep(orgs, c, key);
    }
  }

  lemma {:induction false} CallsKeep(
    orgs: map<string, State>, calls: seq<OrgCall>, residents: set<SnapshotKey>, granted: set<SnapshotKey>, key: SnapshotKey)
    requires Guarded(orgs, residents, granted) && forall c :: c in calls ==> AllowedCall(granted, c)
    ensures Guarded(CalledAll(orgs, calls), residents, granted)
    ensures Past(Org(orgs, key.org), key.generation) ==> Past(Org(CalledAll(orgs, calls), key.org), key.generation)
    ensures Terminal(orgs, key) ==> Terminal(CalledAll(orgs, calls), key)
  {
    if calls != [] {
      var init, last := calls[..|calls| - 1], calls[|calls| - 1];
      CallsKeep(orgs, init, residents, granted, key);
      var before := CalledAll(orgs, init);
      GuardedStep(before, last, residents, granted);
      if Past(Org(before, key.org), key.generation) {
        PastStep(before, last, key);
      }
      if Terminal(before, key) {
        TerminalStep(before, last, granted, key);
      }
    }
  }

  /** However long a pause, the guard holds after it, and what was over or terminal still is. */
  lemma PauseKeeps(
    before: map<string, State>, after: map<string, State>,
    residents: set<SnapshotKey>, granted: set<SnapshotKey>, key: SnapshotKey)
    requires Guarded(before, residents, granted) && Evolved(granted, before, after)
    ensures Guarded(after, residents, granted)
    ensures Past(Org(before, key.org), key.generation) ==> Past(Org(after, key.org), key.generation)
    ensures Terminal(before, key) ==> Terminal(after, key)
  {
    var calls :| (forall c :: c in calls ==> AllowedCall(granted, c)) && after == CalledAll(before, calls);
    CallsKeep(before, calls, residents, granted, key);
  }

  /** Slots were given back, each one of a terminal pair, and the others were left alone. */
  ghost predicate Freed(before: map<nat, SnapshotKey>, after: map<nat, SnapshotKey>, orgs: map<string, State>) {
    && (forall slot :: slot in after ==> slot in before && after[slot] == before[slot])
    && (forall slot :: slot in before && slot !in after ==> Terminal(orgs, before[slot]))
  }

  /** Each slot that does not hold its pair any more held a terminal one. */
  ghost predicate Reaped(before: map<nat, SnapshotKey>, after: map<nat, SnapshotKey>, orgs: map<string, State>) {
    forall slot :: slot in before && !(slot in after && after[slot] == before[slot]) ==> Terminal(orgs, before[slot])
  }

  lemma FewResidents(slots: map<nat, SnapshotKey>)
    requires slots.Keys <= {1, 2}
    ensures |Residents(slots)| <= MAX_SNAPSHOTS
  {
    if 1 in slots && 2 in slots {
      assert Residents(slots) == {slots[1], slots[2]};
    } else if 1 in slots {
      assert Residents(slots) == {slots[1]};
    } else if 2 in slots {
      assert Residents(slots) == {slots[2]};
    } else {
      assert Residents(slots) == {};
    }
  }

  lemma ResidentsWithout(slots: map<nat, SnapshotKey>, slot: nat)
    requires slot in slots && forall i, j :: i in slots && j in slots && slots[i] == slots[j] ==> i == j
    ensures Residents(slots - {slot}) == Residents(slots) - {slots[slot]}
  {
    var rest := slots - {slot};
    forall key ensures key in Residents(rest) <==> key in Residents(slots) - {slots[slot]} {
      if key in Residents(slots) && key != slots[slot] {
        var i :| i in slots && slots[i] == key;
        assert i in rest;
      }
    }
  }

  lemma ResidentsWith(slots: map<nat, SnapshotKey>, slot: nat, key: SnapshotKey)
    requires slot !in slots
    ensures Residents(slots[slot := key]) == Residents(slots) + {key}
  {
    var more := slots[slot := key];
    forall k ensures k in Residents(more) <==> k in Residents(slots) + {key} {
      if k in Residents(slots) {
        var i :| i in slots && slots[i] == k;
        assert i in more;
      }
      if k == key {
        assert slot in more;
      }
    }
  }

  class SnapshotCapacity {
    var slots: map<nat, SnapshotKey>
    /** The coordinators of all organizations; this object only reads them. */
    var orgs: map<string, State>
    /** The pairs a runner was ever granted. */
    ghost var granted: set<SnapshotKey>

    ghost predicate Valid()
      reads this
    {
      && slots.Keys <= {1, 2}
      && (forall i, j :: i in slots && j in slots && slots[i] == slots[j] ==> i == j)
      && Guarded(orgs, Residents(slots), granted)
    }

    constructor ()
      ensures Valid() && slots == map[] && granted == {}
    {
      slots, orgs, granted := map[], map[], {};
    }

    /** At every moment at most two pairs have an outstanding Copy intent. */
    lemma AtMostTwoOutstanding()
      requires Valid()
      ensures |Outstanding(orgs)| <= MAX_SNAPSHOTS
    {
      FewResidents(slots);
      DayGraph.SubsetCardinality(Outstanding(orgs), Residents(slots));
    }

    /** A pause. The coordinators may take any allowed calls; the slots are this object's own. */
    method Await()
      requires Valid()
      modifies `orgs
      ensures Valid() && Evolved(granted, old(orgs), orgs)
      ensures forall key: SnapshotKey :: Past(Org(old(orgs), key.org), key.generation) ==> Past(Org(orgs, key.org), key.generation)
      ensures forall key :: Terminal(old(orgs), key) ==> Terminal(orgs, key)
    {
      assert orgs == CalledAll(orgs, []);
    }

    /** One request for a coordinator's counters, with a pause before and after it. */
    method ReadStats(org: string) returns (stats: State)
      requires Valid()
      modifies `orgs
      ensures Valid() && Seen(granted, old(orgs), org, stats)
      ensures forall g :: Past(stats, g) ==> Past(Org(orgs, org), g)
      ensures forall key :: Terminal(old(orgs), key) && key.org == org ==> Past(stats, key.generation)
      ensures forall key :: Terminal(old(orgs), key) ==> Terminal(orgs, key)
    {
      Await();
      var clock: Clock := *;
      var call := OrgCall(org, OnGate(CallGetStats), clock);
      ghost var before := orgs;
      stats := GetStats(Org(orgs, org), clock).state;
      orgs := orgs[org := stats];
      assert orgs == Called(before, call);
      assert Seen(granted, old(orgs), org, stats);
      GuardedStep(before, call, Residents(slots), granted);
      forall key | Terminal(before, key) ensures Terminal(orgs, key) {
        TerminalStep(before, call, granted, key);
      }
      ghost var read := orgs;
      Await();
      forall g | Past(stats, g) ensures Past(Org(orgs, org), g) {
        assert Past(Org(read, SnapshotKey(org, g).org), SnapshotKey(org, g).generation);
      }
    }

    method IsActive(key: SnapshotKey) returns (active: bool, ghost read: State)
      requires Valid()
      modifies `orgs
      ensures Valid() && Seen(granted, old(orgs), key.org, read) && (active <==> ShowsActive(read, key.generation))
      ensures forall k :: Terminal(old(orgs), k) ==> Terminal(orgs, k)
    {
      var stats := ReadStats(key.org);
      read := stats;
      active := stats.erasureStartedAt.None? && stats.phase.Snapshot? && stats.activeGeneration == Some(key.generation);
    }

    /** Two reads with pauses: first that the generation is over, then that it has no intent. */
    method IsTerminal(key: SnapshotKey) returns (terminal: bool)
      requires Valid()
      modifies `orgs
      ensures Valid()
      ensures forall k :: Terminal(old(orgs), k) ==> Terminal(orgs, k)
      ensures terminal ==> Terminal(orgs, key)
      ensures Terminal(old(orgs), key) ==> terminal
    {
      var stats := ReadStats(key.org);
      if stats.activeGeneration == Some(key.generation) || stats.lastGeneration < key.generation {
        return false;
      }
      assert Past(stats, key.generation);
      terminal := !HasIntent(Org(orgs, key.org), key.generation);
      Await();
    }

    method DeleteSlot(slot: nat)
      requires Valid() && slot in slots && Terminal(orgs, slots[slot])
      modifies `slots
      ensures Valid() && slots == old(slots) - {slot}
    {
      ResidentsWithout(slots, slot);
      assert slots[slot] !in Outstanding(orgs);
      slots := slots - {slot};
    }

    method ReapTerminalSlots()
      requires Valid()
      modifies `slots, `orgs
      ensures Valid() && Freed(old(slots), slots, orgs)
      ensures forall key :: Terminal(old(orgs), key) ==> key !in Residents(slots) && Terminal(orgs, key)
    {
      for slot := 1 to MAX_SNAPSHOTS + 1
        invariant Valid() && Freed(old(slots), slots, orgs)
        invariant forall key :: Terminal(old(orgs), key) ==> Terminal(orgs, key)
        invariant forall s :: 1 <= s < slot && s in slots ==> !Terminal(old(orgs), slots[s])
      {
        if slot in slots {
          var terminal := IsTerminal(slots[slot]);
          if terminal {
            DeleteSlot(slot);
          }
        }
      }
    }

    /** A slot is free, or the one of this pair, or one whose pair is over. */
    ghost predicate HasRoom(key: SnapshotKey)
      reads this
    {
      || key in Residents(slots) || 1 !in slots || 2 !in slots
      || exists slot :: slot in slots && Terminal(orgs, slots[slot])
    }

    /**
     * Grants a slot to an active generation: the one it already has, or a free one after reaping. It is
     * granted exactly if the generation was seen active and there is room, where room may also come up
     * while terminal pairs are looked for.
     */
    method Acquire(key: SnapshotKey) returns (acquired: bool, ghost read: State)
      requires Valid()
      modifies this
      ensures Valid() && Seen(old(granted), old(orgs), key.org, read)
      ensures acquired ==> ShowsActive(read, key.generation)
      ensures acquired ==> key in Residents(slots) && granted == old(granted) + {key}
      ensures acquired ==> Reaped(old(slots), slots, orgs)
      ensures ShowsActive(read, key.generation) && old(HasRoom(key)) ==> acquired
      ensures !acquired ==> granted == old(granted) && slots == old(slots)
    {
      var active;
      active, read := IsActive(key);
      if !active {
        return false, read;
      }
      acquired := true;
      if key !in Residents(slots) {
        acquired := Occupy(key);
      }
      if acquired {
        granted := granted + {key};
      }
    }

    /** Reaps, then takes the first free slot. */
    method Occupy(key: SnapshotKey) returns (taken: bool)
      requires Valid() && key !in Residents(slots)
      modifies `slots, `orgs
      ensures Valid() && (if taken then key in Residents(slots) else slots == old(slots))
      ensures taken ==> Reaped(old(slots), slots, orgs)
      ensures old(HasRoom(key)) ==> taken
    {
      ReapTerminalSlots();
      if 1 in slots && 2 in slots {
        assert slots.Keys == {1, 2};
        return false;
      }
      var free := if 1 !in slots then 1 else 2;
      assert key !in Residents(slots);
      ResidentsWith(slots, free, key);
      slots := slots[free := key];
      return true;
    }

    method Release(key: SnapshotKey)
      requires Valid()
      modifies `slots, `orgs
      ensures Valid() && Freed(old(slots), slots, orgs)
      ensures forall slot :: slot in old(slots) && old(slots)[slot] != key ==> slot in slots
      ensures Terminal(old(orgs), key) ==> key !in Residents(slots)
    {
      var slot := 1;
      while slot <= MAX_SNAPSHOTS && !(slot in slots && slots[slot] == key)
        invariant 1 <= slot <= MAX_SNAPSHOTS + 1
        invariant forall s :: 1 <= s < slot && s in slots ==> slots[s] != key
      {
        slot := slot + 1;
      }
      if slot <= MAX_SNAPSHOTS {
        var terminal := IsTerminal(key);
        if terminal {
          DeleteSlot(slot);
        }
      }
    }
  }
}
