/**
 * How a generation is cut into Copies. The runner builds its chunk plans from the captured days;
 * the coordinator computes the expected key of each cursor position from their number alone. The
 * two computations live in different Workers and must agree.
 */
module CopyPlan {
  import opened Contract

  /** The number of snapshot tables; a target is a position in their list. */
  const TARGET_COUNT := 9

  datatype CopyKey = CopyKey(generation: int, target: nat, copyAttempt: int)

  datatype CopyPlan = CopyPlan(generation: int, days: seq<Day>, copyAttempt: int)

  datatype PlanError =
    | InvalidGeneration
    | ChunkIndexOutOfRange
    | AttemptExceedsSafeRange
    | TooManyChunks

  function ChunkCount(days: nat): nat {
    if days <= MAX_COPY_DAYS then 1 else (days + MAX_COPY_DAYS - 1) / MAX_COPY_DAYS
  }

  function CopyCount(days: nat): nat {
    ChunkCount(days) * TARGET_COUNT
  }

  /** The key the coordinator expects at a cursor position, or none past the last Copy. */
  function KeyAt(generation: int, days: nat, copyIndex: int): Option<CopyKey> {
    if copyIndex < 0 || copyIndex >= CopyCount(days) then None
    else
      var chunkIndex := copyIndex / TARGET_COUNT;
      var chunks := CopyCount(days) / TARGET_COUNT;
      Some(CopyKey(
        generation,
        copyIndex % TARGET_COUNT,
        if chunks == 1 then generation else generation * COPY_ATTEMPT_MULTIPLIER + chunkIndex))
  }

  predicate IsSafePositive(n: int) {
    0 < n <= MAX_SAFE_INTEGER
  }

  predicate IsCopyAttempt(generation: int, copyAttempt: int) {
    if !IsSafePositive(generation) || !IsSafePositive(copyAttempt) then false
    else if copyAttempt == generation then true
    else
      var first := generation * COPY_ATTEMPT_MULTIPLIER;
      first <= MAX_SAFE_INTEGER && first <= copyAttempt && copyAttempt - first < MAX_COPY_CHUNKS
  }

  function CopyAttempt(generation: int, chunkIndex: Option<int>): Result<int, PlanError> {
    if !IsSafePositive(generation) then Err(InvalidGeneration)
    else if chunkIndex.None? then Ok(generation)
    else if !(0 <= chunkIndex.value < MAX_COPY_CHUNKS) then Err(ChunkIndexOutOfRange)
    else
      var attempt := generation * COPY_ATTEMPT_MULTIPLIER + chunkIndex.value;
      if attempt > MAX_SAFE_INTEGER then Err(AttemptExceedsSafeRange) else Ok(attempt)
  }

  function Flatten(plans: seq<CopyPlan>): seq<Day> {
    if plans == [] then [] else Flatten(plans[..|plans| - 1]) + plans[|plans| - 1].days
  }

  /** Chunk number `i`: days `31 * i` up to the next chunk or the end. */
  function ChunkDays(days: seq<Day>, i: nat): seq<Day> {
    if i * MAX_COPY_DAYS >= |days| then []
    else days[i * MAX_COPY_DAYS..Smaller((i + 1) * MAX_COPY_DAYS, |days|)]
  }

  lemma ChunkHoldsDay(days: seq<Day>, k: nat)
    requires k < |days|
    ensures k / MAX_COPY_DAYS < ChunkCount(|days|) && days[k] in ChunkDays(days, k / MAX_COPY_DAYS)
  {
    var i := k / MAX_COPY_DAYS;
    assert ChunkDays(days, i)[k - i * MAX_COPY_DAYS] == days[k];
  }

  ghost predicate IsChunk(generation: int, days: seq<Day>, i: nat, copy: CopyPlan) {
    copy.generation == generation && copy.days == ChunkDays(days, i) && |copy.days| <= MAX_COPY_DAYS
  }

  /** The chunk plans cover the days in order, and each carries the attempt number of its position. */
  ghost predicate ArePlans(generation: int, days: seq<Day>, plans: seq<CopyPlan>) {
    && Flatten(plans) == days
    && |plans| == ChunkCount(|days|)
    && (forall i :: 0 <= i < |plans| ==>
          && IsChunk(generation, days, i, plans[i])
          && plans[i].copyAttempt ==
             if |plans| == 1 then generation else generation * COPY_ATTEMPT_MULTIPLIER + i)
  }

  /** When the runner can plan a generation at all. */
  predicate Plannable(generation: int, days: nat) {
    && IsSafePositive(generation)
    && (days <= MAX_COPY_DAYS ||
        (days <= MAX_COPY_DAYS * MAX_COPY_CHUNKS &&
         generation * COPY_ATTEMPT_MULTIPLIER + ChunkCount(days) - 1 <= MAX_SAFE_INTEGER))
  }

  /** The chunks cut so far, each with the attempt number of its position. */
  ghost predicate CutSoFar(generation: int, days: seq<Day>, copies: seq<CopyPlan>) {
    && Flatten(copies) == days[..Smaller(|copies| * MAX_COPY_DAYS, |days|)]
    && (forall i :: 0 <= i < |copies| ==>
          IsChunk(generation, days, i, copies[i]) && copies[i].copyAttempt == generation * COPY_ATTEMPT_MULTIPLIER + i)
  }

  lemma ChunkExtends(days: seq<Day>, n: nat)
    requires n * MAX_COPY_DAYS < |days|
    ensures days[..Smaller(n * MAX_COPY_DAYS, |days|)] + ChunkDays(days, n) == days[..Smaller((n + 1) * MAX_COPY_DAYS, |days|)]
    ensures |ChunkDays(days, n)| <= MAX_COPY_DAYS
  {}

  lemma CutOneMore(generation: int, days: seq<Day>, copies: seq<CopyPlan>)
    requires CutSoFar(generation, days, copies) && |copies| * MAX_COPY_DAYS < |days|
    ensures
      var chunk := ChunkDays(days, |copies|);
      CutSoFar(generation, days,
        copies + [CopyPlan(generation, chunk, generation * COPY_ATTEMPT_MULTIPLIER + |copies|)])
  {
    var chunk := ChunkDays(days, |copies|);
    FlattenAppend(copies, CopyPlan(generation, chunk, generation * COPY_ATTEMPT_MULTIPLIER + |copies|));
    ChunkExtends(days, |copies|);
  }

  method SnapshotCopyPlans(generation: int, days: seq<Day>) returns (result: Result<seq<CopyPlan>, PlanError>)
    ensures result.Ok? <==> Plannable(generation, |days|)
    ensures result.Ok? ==> ArePlans(generation, days, result.value)
  {
    if |days| <= MAX_COPY_DAYS {
      var attempt := CopyAttempt(generation, None);
      if attempt.Err? {
        return Err(attempt.error);
      }
      var only := CopyPlan(generation, days, attempt.value);
      FlattenAppend([], only);
      assert [] + [only] == [only] && ChunkDays(days, 0) == days;
      return Ok([only]);
    }
    result := ChunkedPlans(generation, days);
  }

  /** The attempts of the chunks cut so far are within the safe range. */
  predicate AttemptsFit(generation: int, chunks: nat) {
    chunks > 0 ==> IsSafePositive(generation) && generation * COPY_ATTEMPT_MULTIPLIER + chunks - 1 <= MAX_SAFE_INTEGER
  }

  lemma CutDone(generation: int, days: seq<Day>, copies: seq<CopyPlan>)
    requires |days| > MAX_COPY_DAYS && CutSoFar(generation, days, copies) && AttemptsFit(generation, |copies|)
    requires |days| <= |copies| * MAX_COPY_DAYS < |days| + MAX_COPY_DAYS && |copies| <= MAX_COPY_CHUNKS
    ensures Plannable(generation, |days|) && ArePlans(generation, days, copies)
  {
    assert days[..|days|] == days;
    ChunksCounted(|days|, |copies|);
  }

  /** Where the loop stands before it cuts chunk number `|copies|`. */
  ghost predicate Cutting(generation: int, days: seq<Day>, copies: seq<CopyPlan>) {
    && CutSoFar(generation, days, copies) && AttemptsFit(generation, |copies|)
    && |copies| <= MAX_COPY_CHUNKS && |copies| * MAX_COPY_DAYS < |days| + MAX_COPY_DAYS
  }

  lemma CutNext(generation: int, days: seq<Day>, copies: seq<CopyPlan>, attempt: int)
    requires Cutting(generation, days, copies) && |copies| * MAX_COPY_DAYS < |days|
    requires CopyAttempt(generation, Some(|copies|)) == Ok(attempt)
    ensures Cutting(generation, days, copies + [CopyPlan(generation, ChunkDays(days, |copies|), attempt)])
  {
    CutOneMore(generation, days, copies);
  }

  predicate NoAttemptLeft(generation: int, chunkIndex: nat) {
    chunkIndex >= MAX_COPY_CHUNKS || CopyAttempt(generation, Some(chunkIndex)).Err?
  }

  lemma CannotPlan(generation: int, days: nat, chunkIndex: nat)
    requires days > MAX_COPY_DAYS && chunkIndex * MAX_COPY_DAYS < days && chunkIndex <= MAX_COPY_CHUNKS
    requires NoAttemptLeft(generation, chunkIndex)
    ensures !Plannable(generation, days)
  {
    ChunksNeeded(days, chunkIndex);
  }

  /** Cuts chunk after chunk until the days are covered or the next chunk has no attempt number. */
  method CutChunks(generation: int, days: seq<Day>) returns (copies: seq<CopyPlan>, error: Option<PlanError>)
    ensures Cutting(generation, days, copies)
    ensures error.None? ==> |copies| * MAX_COPY_DAYS >= |days|
    ensures error.Some? ==> |copies| * MAX_COPY_DAYS < |days| && NoAttemptLeft(generation, |copies|)
  {
    copies := [];
    error := None;
    while |copies| * MAX_COPY_DAYS < |days|
      invariant Cutting(generation, days, copies)
      decreases |days| - |copies| * MAX_COPY_DAYS
    {
      if |copies| >= MAX_COPY_CHUNKS {
        error := Some(TooManyChunks);
        return;
      }
      var attempt := CopyAttempt(generation, Some(|copies|));
      if attempt.Err? {
        error := Some(attempt.error);
        return;
      }
      CutNext(generation, days, copies, attempt.value);
      copies := copies + [CopyPlan(generation, ChunkDays(days, |copies|), attempt.value)];
    }
  }

  method ChunkedPlans(generation: int, days: seq<Day>) returns (result: Result<seq<CopyPlan>, PlanError>)
    requires |days| > MAX_COPY_DAYS
    ensures result.Ok? <==> Plannable(generation, |days|)
    ensures result.Ok? ==> ArePlans(generation, days, result.value)
  {
    var copies, error := CutChunks(generation, days);
    if error.Some? {
      CannotPlan(generation, |days|, |copies|);
      return Err(error.value);
    }
    CutDone(generation, days, copies);
    return Ok(copies);
  }

  function Smaller(a: nat, b: nat): nat {
    if a < b then a else b
  }

  lemma FlattenAppend(plans: seq<CopyPlan>, copy: CopyPlan)
    ensures Flatten(plans + [copy]) == Flatten(plans) + copy.days
  {
    assert (plans + [copy])[..|plans|] == plans;
  }

  lemma ChunksNeeded(days: nat, chunkIndex: nat)
    requires days > MAX_COPY_DAYS && chunkIndex * MAX_COPY_DAYS < days
    ensures chunkIndex < ChunkCount(days)
  {}

  lemma ChunksCounted(days: nat, chunks: nat)
    requires days > MAX_COPY_DAYS && days <= chunks * MAX_COPY_DAYS < days + MAX_COPY_DAYS
    ensures ChunkCount(days) == chunks && chunks > 1
  {}

  /**
   * At every cursor position the runner's plan carries exactly the key the coordinator expects,
   * and that key is a valid attempt of the generation.
   */
  lemma PlanAgreesWithCursor(generation: int, days: seq<Day>, plans: seq<CopyPlan>, copyIndex: int)
    requires Plannable(generation, |days|) && ArePlans(generation, days, plans)
    requires 0 <= copyIndex < CopyCount(|days|)
    ensures copyIndex / TARGET_COUNT < |plans|
    ensures KeyAt(generation, |days|, copyIndex) ==
      Some(CopyKey(generation, copyIndex % TARGET_COUNT, plans[copyIndex / TARGET_COUNT].copyAttempt))
    ensures IsCopyAttempt(generation, plans[copyIndex / TARGET_COUNT].copyAttempt)
  {
    var chunk := copyIndex / TARGET_COUNT;
    assert chunk < ChunkCount(|days|);
    if ChunkCount(|days|) > 1 {
      assert chunk < MAX_COPY_CHUNKS;
    }
  }

  /** Every retained set of dirty days can be planned: a full window needs twelve chunks. */
  lemma RetainedWindowIsPlannable(generation: int, days: nat)
    requires days <= MAX_DIRTY_DAYS && IsSafePositive(generation)
    ensures Plannable(generation, days) <==>
      days <= MAX_COPY_DAYS || generation * COPY_ATTEMPT_MULTIPLIER + ChunkCount(days) - 1 <= MAX_SAFE_INTEGER
    ensures ChunkCount(days) <= MAX_COPY_CHUNKS
  {}

  /** Different cursor positions have different keys, so a Copy key names one position. */
  lemma KeysAreDistinct(generation: int, days: nat, i: int, j: int)
    requires KeyAt(generation, days, i).Some?
    requires KeyAt(generation, days, i) == KeyAt(generation, days, j)
    ensures i == j
  {
    assert CopyCount(days) / TARGET_COUNT == ChunkCount(days);
    assert i == (i / TARGET_COUNT) * TARGET_COUNT + i % TARGET_COUNT;
    assert j == (j / TARGET_COUNT) * TARGET_COUNT + j % TARGET_COUNT;
    if ChunkCount(days) == 1 {
      assert i / TARGET_COUNT == 0 && j / TARGET_COUNT == 0;
    }
  }

  /** Chunked attempts of different generations never collide: sixteen leaves room for twelve. */
  lemma ChunkedAttemptsAreDisjoint(g: int, h: int, i: int, j: int)
    requires 0 <= i < MAX_COPY_CHUNKS && 0 <= j < MAX_COPY_CHUNKS
    requires g * COPY_ATTEMPT_MULTIPLIER + i == h * COPY_ATTEMPT_MULTIPLIER + j
    ensures g == h && i == j
  {
    assert (g - h) * COPY_ATTEMPT_MULTIPLIER == j - i;
  }

  /**
   * An attempt number alone does not name a generation: it is shared exactly when one generation is
   * a chunk attempt of the other. The generation in the key is what keeps the two Copies apart.
   */
  lemma SharedAttempts(g: int, h: int, attempt: int)
    requires g < h
    ensures IsCopyAttempt(g, attempt) && IsCopyAttempt(h, attempt) <==>
      && attempt == h && IsSafePositive(g) && h <= MAX_SAFE_INTEGER
      && 0 <= h - g * COPY_ATTEMPT_MULTIPLIER < MAX_COPY_CHUNKS
  {
    assert h * COPY_ATTEMPT_MULTIPLIER >= g * COPY_ATTEMPT_MULTIPLIER + COPY_ATTEMPT_MULTIPLIER;
  }

  lemma AttemptCollisionExample()
    ensures IsCopyAttempt(1, 16) && IsCopyAttempt(16, 16)
  {}

  lemma PositionOf(chunk: nat, target: nat)
    requires target < TARGET_COUNT
    ensures (chunk * TARGET_COUNT + target) / TARGET_COUNT == chunk
    ensures (chunk * TARGET_COUNT + target) % TARGET_COUNT == target
  {}

  /** For every captured day and every target, some cursor position copies that day to that target. */
  lemma EveryDayIsCopiedToEveryTarget(days: seq<Day>, k: nat, target: nat) returns (copyIndex: nat)
    requires k < |days| && target < TARGET_COUNT
    ensures copyIndex < CopyCount(|days|) && copyIndex % TARGET_COUNT == target
    ensures days[k] in ChunkDays(days, copyIndex / TARGET_COUNT)
  {
    ChunkHoldsDay(days, k);
    PositionOf(k / MAX_COPY_DAYS, target);
    copyIndex := k / MAX_COPY_DAYS * TARGET_COUNT + target;
  }
}
