/**
 * Erasing an organization: raise the fence, settle the Copies that are still outstanding, abandon
 * the active generation, and report whether nothing is left. A pass may fail at any call and is
 * repeated until it reports ready.
 */
module OrganizationErasure {
  import opened Contract
  import opened CopyPlan
  import opened CoordinatorModel
  import opened CoordinatorInvariants
  import opened CoordinatorRuns
  import opened CoordinatorSafety
  import opened CoordinatorObject
  import M = CoordinatorModel

  datatype FoundJob = Found(job: string, over: bool, succeeded: bool) | NotFound | Undiscovered

  datatype Pass = Ready | NotReady | Threw

  // ---- what the calls of a pass do ----

  predicate ValidKeys(c: State) {
    forall k :: k in c.intents ==> KeyFault(k).None?
  }

  /** A recorded key passed the checks that settling it repeats. */
  lemma {:induction false} KeysAreValid(run: seq<Event>)
    ensures ValidKeys(After(run))
  {
    if run != [] {
      var before, last := run[..|run| - 1], run[|run| - 1];
      KeysAreValid(before);
      ReachableInv(before);
      NewKeysAreRecorded(After(before), last.call, last.clock);
      forall k | k in After(run).intents && k !in After(before).intents ensures KeyFault(k).None? {
        NewKeyIsValid(After(before), last.call.copy, last.clock, k);
      }
    }
  }

  lemma NewKeysAreRecorded(c: State, call: Call, clock: Clock)
    requires Inv(c)
    ensures forall k :: k in Step(c, call, clock).state.intents && k !in c.intents ==>
      call.OnCopy? && call.copy.CallRecordIntent? && call.copy.key == k
  {
    StepEffects(c, call, clock);
  }

  lemma NewKeyIsValid(c: State, call: CopyCall, clock: Clock, k: CopyKey)
    requires call.CallRecordIntent? && call.key == k && k !in c.intents && k in CopyStep(c, call, clock).state.intents
    ensures KeyFault(k).None?
  {
    RecordIntentShape(c, k, call.claim, call.copyIndex, call.startedAt, clock);
    AtCursor(c, k, call.claim, call.copyIndex, clock);
  }

  /** Behind the fence, with keys that an erasure can settle. */
  predicate Settleable(c: State) {
    c.erasureStartedAt.Some? && ValidKeys(c)
  }

  predicate IsOver(found: FoundJob) {
    found.Found? && found.over
  }

  /** What is left of the intents: those whose job is over are gone, and a job that was found is attached. */
  function LeftIntents(intents: map<CopyKey, Intent>, said: map<CopyKey, FoundJob>): map<CopyKey, Intent> {
    map k | k in intents && !(k in said && IsOver(said[k])) ::
      if k in said && said[k].Found? then intents[k].(job := Some(said[k].job)) else intents[k]
  }

  function SettledAs(c: State, said: map<CopyKey, FoundJob>): State {
    c.(intents := LeftIntents(c.intents, said))
  }

  lemma NothingSaid(c: State)
    ensures SettledAs(c, map[]) == c
  {
    assert LeftIntents(c.intents, map[]) == c.intents;
  }

  /** One intent after the other comes to the same. */
  lemma OneMoreSaid(c: State, said: map<CopyKey, FoundJob>, key: CopyKey, found: FoundJob)
    requires key !in said
    ensures SettledAs(SettledAs(c, said), map[key := found]) == SettledAs(c, said[key := found])
  {
    assert LeftIntents(LeftIntents(c.intents, said), map[key := found]) == LeftIntents(c.intents, said[key := found]);
  }

  lemma SettledStaysFenced(c: State, said: map<CopyKey, FoundJob>)
    requires Settleable(c)
    ensures Settleable(SettledAs(c, said))
  {}

  lemma AllOverLeavesNothing(c: State, said: map<CopyKey, FoundJob>)
    requires said.Keys == c.intents.Keys
    ensures SettledAs(c, said).intents == map[] <==> forall k :: k in said ==> IsOver(said[k])
  {
    var left := LeftIntents(c.intents, said);
    if left == map[] {
      forall k | k in said ensures IsOver(said[k]) {
        assert k !in left;
      }
    }
    if forall k :: k in said ==> IsOver(said[k]) {
      assert left.Keys == {};
    }
  }

  lemma BeginFences(c: State, clock: Clock)
    requires Inv(c) && ValidKeys(c)
    ensures
      var out := M.BeginErasure(c, clock);
      && out.reply.Erasure? && Settleable(out.state) && out.state.intents == c.intents && out.state.active == c.active
  {
    RecoverStays(c, clock);
    RecoverFrame(c, clock);
  }

  /** A job is attached to its intent and, if it is over, the intent is removed. */
  lemma SettleOne(c: State, key: CopyKey, found: FoundJob)
    requires Settleable(c) && key in c.intents && found.Found?
    requires c.intents[key].job.None? || c.intents[key].job == Some(found.job)
    ensures
      var attached := M.AttachErasureJob(c, key, found.job);
      && attached.reply == Done && attached.state == SettledAs(c, map[key := found.(over := false)])
      && (c.intents[key].job.Some? ==> attached.state == c)
      && M.SettleErasureIntent(attached.state, key, found.job) ==
         Outcome(SettledAs(c, map[key := found.(over := true)]), Done)
  {
    var attached := M.AttachErasureJob(c, key, found.job);
    assert KeyFault(key).None?;
    assert attached.state.intents == LeftIntents(c.intents, map[key := found.(over := false)]);
    assert attached.state.intents - {key} == LeftIntents(c.intents, map[key := found.(over := true)]);
    if c.intents[key].job.Some? {
      assert attached.state.intents == c.intents;
    }
  }

  /** What reading the erasure state reports, and what keeps it from being ready. */
  lemma ReadReports(c: State, clock: Clock)
    requires Inv(c) && Settleable(c)
    ensures
      var out := M.GetErasureState(c, clock);
      && out.reply.Erasure? && Settleable(out.state) && out.state.intents == c.intents && out.state.active == c.active
      && out.reply.outstandingIntents == |c.intents| && out.state.activeGeneration == c.activeGeneration
      && (out.reply.ready <==> c.active == map[] && c.intents == map[] && c.activeGeneration.None?)
  {
    RecoverStays(c, clock);
    RecoverFrame(c, clock);
    RecoverShape(c, clock.now);
  }

  lemma AbandonEnds(c: State, clock: Clock)
    requires Inv(c) && Settleable(c) && c.intents == map[] && c.activeGeneration.Some?
    ensures
      var out := M.AbandonErasureSnapshot(c, c.activeGeneration.value, clock);
      && !out.reply.Refused? && Settleable(out.state) && out.state.intents == map[] && out.state.active == c.active == map[]
      && out.state.activeGeneration.None?
  {
    RecoverShape(c, clock.now);
  }

  class Eraser {
    const coordinator: Coordinator
    /** Whether nobody else calls the coordinator during the pass and no call of it fails. */
    const calm: bool
    /** Whether the job of every outstanding Copy is over and can be found. */
    const jobsOver: bool
    /** The jobs that the Copy service reported as over. */
    ghost var ended: set<string>

    ghost predicate Valid()
      reads this, coordinator
    {
      coordinator.Valid()
    }

    constructor (coordinator: Coordinator, calm: bool, jobsOver: bool)
      requires coordinator.Valid()
      ensures Valid() && this.coordinator == coordinator && this.calm == calm && this.jobsOver == jobsOver
    {
      this.coordinator, this.calm, this.jobsOver := coordinator, calm, jobsOver;
      ended := {};
    }

    /** An intent is removed only when its job was reported over. */
    ghost predicate Reported(call: ErasureCall)
      reads this
    {
      call.CallSettleErasureIntent? ==> call.job in ended
    }

    method Pause()
      requires Valid()
      modifies coordinator
      ensures Valid() && old(coordinator.log) <= coordinator.log && (calm ==> coordinator.log == old(coordinator.log))
    {}

    method Serve(call: ErasureCall) returns (answer: Reply)
      requires Valid()
      modifies coordinator
      ensures Valid() && old(coordinator.log) <= coordinator.log
      ensures AnsweredAt(coordinator.log, |old(coordinator.log)|, call, answer)
      ensures Did(old(coordinator.Tables()), call, coordinator.Tables(), answer)
    {
      var now: int := *;
      var oldest: Day := *;
      var today: Day := *;
      var clock := Clock(now, oldest, today);
      ghost var before := coordinator.log;
      answer := coordinator.Handle(OnErasure(call), clock);
      Appended(before, call, clock, coordinator.log, answer);
    }

    /** One erasure call; `i` is where the log has it, if it was answered. */
    method Request(call: ErasureCall) returns (reply: Option<Reply>, ghost i: nat)
      requires Valid() && Reported(call)
      modifies coordinator
      ensures Valid() && old(coordinator.log) <= coordinator.log
      ensures reply.Some? ==> AnsweredAt(coordinator.log, i, call, reply.value)
      ensures calm ==> reply.Some? && Did(old(coordinator.Tables()), call, coordinator.Tables(), reply.value)
    {
      Pause();
      i := |coordinator.log|;
      var reached: bool := *;
      if !calm && !reached {
        return None, i;
      }
      var answer := Serve(call);
      ghost var served := coordinator.log;
      var heard: bool := *;
      reply := if calm || heard then Some(answer) else None;
      Pause();
      StillAnswered(served, coordinator.log, i, call, answer);
    }

    method DiscoverJob(intent: Intent) returns (found: FoundJob)
      requires Valid()
      modifies coordinator, `ended
      ensures Valid() && old(coordinator.log) <= coordinator.log && (calm ==> coordinator.log == old(coordinator.log))
      ensures old(ended) <= ended && (IsOver(found) ==> found.job in ended)
      ensures jobsOver ==> IsOver(found)
      ensures found.Found? && intent.job.Some? ==> intent.job == Some(found.job)
    {
      Pause();
      found := *;
      if jobsOver || found.Found? {
        var job: string := *;
        var over: bool := *;
        var succeeded: bool := *;
        found := Found(if intent.job.Some? then intent.job.value else job, jobsOver || over, succeeded);
      }
      NoteOver(found);
    }

    ghost method NoteOver(found: FoundJob)
      modifies `ended
      ensures old(ended) <= ended && (IsOver(found) ==> found.job in ended)
    {
      ended := ended + if IsOver(found) then {found.job} else {};
    }

    /** Settles one intent as far as its job is known: it is attached, and removed only if it is over. */
    method SettleIntent(key: CopyKey, intent: Intent) returns (ok: bool, ghost found: FoundJob)
      requires Valid()
      modifies coordinator, `ended
      ensures Valid() && old(coordinator.log) <= coordinator.log
      ensures (jobsOver ==> IsOver(found)) && (ok ==> !found.Undiscovered?)
      ensures calm && old(MaySettle(coordinator.Tables(), key, intent)) ==>
        (ok <==> !found.Undiscovered?) && coordinator.Tables() == SettledAs(old(coordinator.Tables()), map[key := found])
    {
      ghost var c := coordinator.Tables();
      var seen := DiscoverJob(intent);
      found := seen;
      if !found.Found? {
        assert LeftIntents(c.intents, map[key := found]) == c.intents;
      }
      if seen.Undiscovered? {
        return false, seen;
      }
      if seen.NotFound? {
        return true, seen;
      }
      ok := AttachAndSettle(key, intent, seen);
    }

    method AttachAndSettle(key: CopyKey, intent: Intent, found: FoundJob) returns (ok: bool)
      requires Valid() && found.Found? && (found.over ==> found.job in ended)
      requires intent.job.Some? ==> intent.job == Some(found.job)
      modifies coordinator
      ensures Valid() && old(coordinator.log) <= coordinator.log
      ensures calm && old(MaySettle(coordinator.Tables(), key, intent)) ==>
        ok && coordinator.Tables() == SettledAs(old(coordinator.Tables()), map[key := found])
    {
      if MaySettle(coordinator.Tables(), key, intent) {
        SettleOne(coordinator.Tables(), key, found);
      }
      assert found.(over := found.over) == found;
      if intent.job.None? {
        var reply, _ := Request(CallAttachErasureJob(key, found.job));
        if reply != Some(Done) {
          return false;
        }
      }
      if !found.over {
        return true;
      }
      var reply, _ := Request(CallSettleErasureIntent(key, found.job));
      ok := reply == Some(Done);
    }

    /** Settles every intent that is outstanding when the pass looks, in any order. */
    method SettleOutstanding() returns (ok: bool, ghost said: map<CopyKey, FoundJob>)
      requires Valid()
      modifies coordinator, `ended
      ensures Valid() && old(coordinator.log) <= coordinator.log
      ensures jobsOver ==> forall k :: k in said ==> IsOver(said[k])
      ensures calm && old(Settleable(coordinator.Tables())) ==>
        && said.Keys == old(coordinator.intents).Keys && (ok <==> forall k :: k in said ==> !said[k].Undiscovered?)
        && coordinator.Tables() == SettledAs(old(coordinator.Tables()), said)
    {
      ghost var c0 := coordinator.Tables();
      ghost var settling := calm && Settleable(c0);
      Pause();
      var intents := coordinator.intents;
      var left := intents.Keys;
      ok, said := true, map[];
      NothingSaid(c0);
      while left != {}
        invariant Valid() && old(coordinator.log) <= coordinator.log && left <= intents.Keys
        invariant said.Keys == intents.Keys - left && (ok ==> forall k :: k in said ==> !said[k].Undiscovered?)
        invariant jobsOver ==> forall k :: k in said ==> IsOver(said[k])
        invariant settling ==> intents == c0.intents && coordinator.Tables() == SettledAs(c0, said)
        invariant settling && !ok ==> exists k :: k in said && said[k].Undiscovered?
        decreases |left|
      {
        var key :| key in left;
        ghost var found;
        var settled;
        settled, found := SettleNext(key, intents[key], c0, said);
        assert said[key := found][key] == found;
        said, ok := said[key := found], ok && settled;
        left := left - {key};
      }
    }

    /** Settles one more intent, after what was said of others. */
    method SettleNext(key: CopyKey, intent: Intent, ghost c0: State, ghost said: map<CopyKey, FoundJob>)
      returns (ok: bool, ghost found: FoundJob)
      requires Valid() && key !in said
      modifies coordinator, `ended
      ensures Valid() && old(coordinator.log) <= coordinator.log
      ensures (jobsOver ==> IsOver(found)) && (ok ==> !found.Undiscovered?)
      ensures calm && MaySettle(c0, key, intent) && old(coordinator.Tables()) == SettledAs(c0, said) ==>
        (ok <==> !found.Undiscovered?) && coordinator.Tables() == SettledAs(c0, said[key := found])
    {
      if MaySettle(c0, key, intent) {
        OneMoreIsThere(c0, said, key);
      }
      ok, found := SettleIntent(key, intent);
      OneMoreSaid(c0, said, key, found);
    }

    /** Abandons the active generation once no Copy is outstanding. */
    method AbandonIfSettled(generation: int) returns (ok: bool)
      requires Valid()
      modifies coordinator
      ensures Valid() && old(coordinator.log) <= coordinator.log
      ensures calm && old(Settleable(coordinator.Tables()) && coordinator.intents == map[] && coordinator.activeGeneration == Some(generation)) ==>
        ok && Settleable(coordinator.Tables()) && NothingIsLeft(coordinator.Tables())
    {
      ghost var c0 := coordinator.Tables();
      if Settleable(c0) && c0.intents == map[] && c0.activeGeneration == Some(generation) {
        ReachableInv(coordinator.log);
        forall clock ensures Abandons(M.AbandonErasureSnapshot(c0, generation, clock)) {
          AbandonEnds(c0, clock);
        }
      }
      var reply, _ := Request(CallAbandonErasureSnapshot(generation));
      ok := reply.Some? && !reply.value.Refused?;
    }

    /** Reads the erasure state, with the generation that is still active. */
    method ReadState() returns (reply: Option<Reply>, generation: Option<int>)
      requires Valid()
      modifies coordinator
      ensures Valid() && old(coordinator.log) <= coordinator.log
      ensures reply.Some? && reply.value.Erasure? && reply.value.ready ==> Erased(coordinator.Tables())
      ensures calm && old(Settleable(coordinator.Tables())) ==>
        && reply.Some? && Reads(old(coordinator.Tables()), Outcome(coordinator.Tables(), reply.value))
        && generation == coordinator.activeGeneration
    {
      ghost var c0 := coordinator.Tables();
      if Settleable(c0) {
        ReachableInv(coordinator.log);
        forall clock ensures Reads(c0, M.GetErasureState(c0, clock)) {
          ReadReports(c0, clock);
        }
      }
      ghost var i;
      reply, i := Request(CallGetErasureState);
      generation := coordinator.activeGeneration;
      if reply.Some? && reply.value.Erasure? && reply.value.ready {
        ErasureReadyIsFinal(coordinator.log, i, |coordinator.log|);
        assert coordinator.log[..|coordinator.log|] == coordinator.log;
      }
    }

    method RaiseFence() returns (ok: bool)
      requires Valid()
      modifies coordinator
      ensures Valid() && old(coordinator.log) <= coordinator.log
      ensures calm ==>
        && ok && Settleable(coordinator.Tables())
        && coordinator.intents == old(coordinator.intents) && coordinator.active == old(coordinator.active)
    {
      ghost var c0 := coordinator.Tables();
      ReachableInv(coordinator.log);
      KeysAreValid(coordinator.log);
      forall clock ensures Begins(c0, M.BeginErasure(c0, clock)) {
        BeginFences(c0, clock);
      }
      var reply, _ := Request(CallBeginErasure);
      ok := reply.Some? && !reply.value.Refused?;
    }

    /** Reports ready, after abandoning the generation that is left once no Copy is outstanding. */
    method Conclude() returns (pass: Pass)
      requires Valid()
      modifies coordinator
      ensures Valid() && old(coordinator.log) <= coordinator.log
      ensures pass.Ready? ==> Erased(coordinator.Tables())
      ensures calm && old(Settleable(coordinator.Tables())) ==>
        pass == if old(coordinator.active == map[] && coordinator.intents == map[]) then Ready else NotReady
    {
      ReachableInv(coordinator.log);
      var state, generation := ReadState();
      if state.None? || !state.value.Erasure? {
        return Threw;
      }
      ReachableInv(coordinator.log);
      if generation.Some? && state.value.outstandingIntents == 0 {
        var ok := AbandonIfSettled(generation.value);
        if !ok {
          return Threw;
        }
        state, generation := ReadState();
        if state.None? || !state.value.Erasure? {
          return Threw;
        }
      }
      return if state.value.ready then Ready else NotReady;
    }

    /**
     * One pass. It reports ready only when every table is empty, which stays so. A calm pass reports ready
     * exactly when no delivery is active and the job of every outstanding Copy was found to be over.
     */
    method Erase() returns (pass: Pass, ghost said: map<CopyKey, FoundJob>)
      requires Valid()
      modifies coordinator, `ended
      ensures Valid() && old(coordinator.log) <= coordinator.log
      ensures pass.Ready? ==> Erased(coordinator.Tables())
      ensures calm ==> said.Keys == old(coordinator.intents).Keys && pass == PassOf(old(coordinator.active) == map[], said)
      ensures calm && jobsOver && old(coordinator.active) == map[] ==> pass == Ready
    {
      said := map[];
      var ok := RaiseFence();
      if !ok {
        return Threw, said;
      }
      ghost var c := coordinator.Tables();
      ok, said := SettleOutstanding();
      if !ok {
        return Threw, said;
      }
      if calm {
        SettledStaysFenced(c, said);
        AllOverLeavesNothing(c, said);
      }
      pass := Conclude();
    }
  }

  /** How a calm pass ends: an error if a job could not be looked for, and ready once everything is over. */
  function PassOf(noDelivery: bool, said: map<CopyKey, FoundJob>): Pass {
    if exists k :: k in said && said[k].Undiscovered? then Threw
    else if noDelivery && forall k :: k in said ==> IsOver(said[k]) then Ready
    else NotReady
  }

  lemma OneMoreIsThere(c: State, said: map<CopyKey, FoundJob>, key: CopyKey)
    requires Settleable(c) && key in c.intents && key !in said
    ensures MaySettle(SettledAs(c, said), key, c.intents[key])
  {
    SettledStaysFenced(c, said);
  }

  /** The log has the call at a position, with this answer. */
  ghost predicate AnsweredAt(log: seq<Event>, i: nat, call: ErasureCall, reply: Reply) {
    i < |log| && log[i].call == OnErasure(call) && ReplyAt(log, i) == reply
  }

  predicate MaySettle(c: State, key: CopyKey, intent: Intent) {
    Settleable(c) && key in c.intents && c.intents[key] == intent
  }

  predicate NothingIsLeft(c: State) {
    c.active == map[] && c.intents == map[] && c.activeGeneration.None?
  }

  predicate Begins(c: State, out: Outcome) {
    !out.reply.Refused? && Settleable(out.state) && out.state.intents == c.intents && out.state.active == c.active
  }

  predicate Abandons(out: Outcome) {
    !out.reply.Refused? && Settleable(out.state) && NothingIsLeft(out.state)
  }

  predicate Reads(c: State, out: Outcome) {
    && out.reply.Erasure? && Settleable(out.state) && out.state.intents == c.intents && out.state.active == c.active
    && out.reply.outstandingIntents == |c.intents| && out.state.activeGeneration == c.activeGeneration
    && (out.reply.ready <==> NothingIsLeft(c))
  }

  lemma StillAnswered(log: seq<Event>, longer: seq<Event>, i: nat, call: ErasureCall, reply: Reply)
    requires AnsweredAt(log, i, call, reply) && log <= longer
    ensures AnsweredAt(longer, i, call, reply)
  {
    assert longer[..i] == log[..i] && longer[i] == log[i];
  }

  /** The call took the tables from one state to the other. */
  ghost predicate Did(c: State, call: ErasureCall, c1: State, reply: Reply) {
    exists clock :: Outcome(c1, reply) == ErasureStep(c, call, clock)
  }

  lemma Appended(before: seq<Event>, call: ErasureCall, clock: Clock, log: seq<Event>, answer: Reply)
    requires log == before + [Event(OnErasure(call), clock)] && answer == ReplyAt(log, |log| - 1)
    ensures before <= log && AnsweredAt(log, |before|, call, answer)
    ensures Did(After(before), call, After(log), answer)
  {
    assert log[..|before|] == before && log[..|log|] == log;
    AfterNext(log, |before|);
    assert Outcome(After(log), answer) == ErasureStep(After(before), call, clock);
  }
}
