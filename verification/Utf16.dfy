/**
 * Text as the program holds it, in UTF-16 code units, its length once encoded in UTF-8, and the
 * chunks a long text is stored in. A surrogate without its partner is encoded as the replacement
 * character, which has three bytes.
 */
module Utf16 {
  import opened Contract
  import opened Utf8

  type CodeUnit = u: int | 0 <= u < 0x1_0000

  type Units = seq<CodeUnit>

  predicate IsHigh(u: CodeUnit) {
    0xd800 <= u <= 0xdbff
  }

  predicate IsLow(u: CodeUnit) {
    0xdc00 <= u <= 0xdfff
  }

  /** The bytes that one more unit adds: completing a pair turns the three of its half into four. */
  function Added(before: Units, u: CodeUnit): nat {
    if before != [] && IsHigh(before[|before| - 1]) && IsLow(u) then 1
    else if u < 0x80 then 1 else if u < 0x800 then 2 else 3
  }

  function EncodedBytes(s: Units): nat {
    if s == [] then 0 else EncodedBytes(s[..|s| - 1]) + Added(s[..|s| - 1], s[|s| - 1])
  }

  /** A longer prefix has at least as many bytes, and a prefix has at most three bytes a unit. */
  lemma {:induction false} PrefixUnits(s: Units, i: nat, j: nat)
    requires i <= j <= |s|
    ensures EncodedBytes(s[..i]) + (j - i) <= EncodedBytes(s[..j]) <= EncodedBytes(s[..i]) + 3 * (j - i)
    decreases j
  {
    if i < j {
      PrefixUnits(s, i, j - 1);
      assert s[..j][..j - 1] == s[..j - 1];
    }
  }

  // ---- cutting between pairs ----

  /** The cut does not part a surrogate pair. */
  predicate Unparted(a: Units, b: Units) {
    a != [] && b != [] ==> !(IsHigh(a[|a| - 1]) && IsLow(b[0]))
  }

  /** Then the encodings of the two sides make up the encoding of the whole. */
  lemma {:induction false} UnpartedBytes(a: Units, b: Units)
    requires Unparted(a, b)
    ensures EncodedBytes(a + b) == EncodedBytes(a) + EncodedBytes(b)
  {
    if b == [] {
      assert a + b == a;
    } else {
      var init := b[..|b| - 1];
      assert (a + b)[..|a + b| - 1] == a + init;
      UnpartedBytes(a, init);
      assert Added(a + init, b[|b| - 1]) == Added(init, b[|b| - 1]);
    }
  }

  function Join(chunks: seq<Units>): Units {
    if chunks == [] then [] else Join(chunks[..|chunks| - 1]) + chunks[|chunks| - 1]
  }

  lemma JoinAppend(chunks: seq<Units>, chunk: Units)
    ensures Join(chunks + [chunk]) == Join(chunks) + chunk
  {
    assert (chunks + [chunk])[..|chunks|] == chunks;
  }

  /** Chunks that are not empty and part no pair. */
  ghost predicate AreParts(chunks: seq<Units>) {
    && (forall i :: 0 <= i < |chunks| ==> chunks[i] != [])
    && (forall i :: 0 <= i < |chunks| - 1 ==> Unparted(chunks[i], chunks[i + 1]))
  }

  function AllBytes(chunks: seq<Units>): nat {
    if chunks == [] then 0 else AllBytes(chunks[..|chunks| - 1]) + EncodedBytes(chunks[|chunks| - 1])
  }

  lemma LastOfJoin(chunks: seq<Units>)
    requires AreParts(chunks) && chunks != []
    ensures Join(chunks) != [] && Join(chunks)[|Join(chunks)| - 1] == chunks[|chunks| - 1][|chunks[|chunks| - 1]| - 1]
  {}

  lemma PartsBefore(chunks: seq<Units>)
    requires AreParts(chunks) && chunks != []
    ensures AreParts(chunks[..|chunks| - 1]) && Unparted(Join(chunks[..|chunks| - 1]), chunks[|chunks| - 1])
  {
    var init, n := chunks[..|chunks| - 1], |chunks| - 1;
    forall i | 0 <= i < |init| - 1 ensures Unparted(init[i], init[i + 1]) {
      assert Unparted(chunks[i], chunks[i + 1]);
    }
    if init != [] {
      LastOfJoin(init);
      assert Unparted(chunks[n - 1], chunks[n]);
    }
  }

  /** The chunks take as many bytes as the text they join to. */
  lemma {:induction false} PartsKeepBytes(chunks: seq<Units>)
    requires AreParts(chunks)
    ensures AllBytes(chunks) == EncodedBytes(Join(chunks))
  {
    if chunks != [] {
      var init, last := chunks[..|chunks| - 1], chunks[|chunks| - 1];
      PartsBefore(chunks);
      PartsKeepBytes(init);
      UnpartedBytes(Join(init), last);
    }
  }

  /** Every surrogate has its partner. */
  predicate WellFormed(s: Units) {
    && (forall i :: 0 <= i < |s| && IsHigh(s[i]) ==> i + 1 < |s| && IsLow(s[i + 1]))
    && (forall i :: 0 <= i < |s| && IsLow(s[i]) ==> i > 0 && IsHigh(s[i - 1]))
  }

  lemma WellFormedSides(a: Units, b: Units)
    requires WellFormed(a + b) && Unparted(a, b)
    ensures WellFormed(a) && WellFormed(b)
  {
    var s := a + b;
    forall i | 0 <= i < |a| && IsHigh(a[i]) ensures i + 1 < |a| && IsLow(a[i + 1]) {
      assert s[i] == a[i] && IsLow(s[i + 1]);
    }
    forall i | 0 <= i < |a| && IsLow(a[i]) ensures i > 0 && IsHigh(a[i - 1]) {
      assert s[i] == a[i] && s[i - 1] == a[i - 1];
    }
    forall i | 0 <= i < |b| && IsHigh(b[i]) ensures i + 1 < |b| && IsLow(b[i + 1]) {
      assert s[|a| + i] == b[i] && IsLow(s[|a| + i + 1]);
    }
    forall i | 0 <= i < |b| && IsLow(b[i]) ensures i > 0 && IsHigh(b[i - 1]) {
      assert s[|a| + i] == b[i] && IsHigh(s[|a| + i - 1]);
    }
  }

  /** The chunks of a text without lone surrogates have none either. */
  lemma {:induction false} PartsAreWellFormed(chunks: seq<Units>, i: nat)
    requires AreParts(chunks) && WellFormed(Join(chunks)) && i < |chunks|
    ensures WellFormed(chunks[i])
  {
    var init, last := chunks[..|chunks| - 1], chunks[|chunks| - 1];
    PartsBefore(chunks);
    WellFormedSides(Join(init), last);
    if i < |init| {
      PartsAreWellFormed(init, i);
    }
  }

  // ---- the chunks of a text ----

  datatype SplitError = CouldNotSplit

  /** The bytes of a piece of a text. */
  function Size(value: Units, start: nat, end: nat): nat
    requires start <= end <= |value|
  {
    EncodedBytes(value[start..end])
  }

  lemma SizeGrows(value: Units, start: nat, i: nat, j: nat)
    requires start <= i <= j <= |value|
    ensures Size(value, start, i) + (j - i) <= Size(value, start, j) <= Size(value, start, i) + 3 * (j - i)
  {
    var rest := value[start..];
    assert rest[..i - start] == value[start..i] && rest[..j - start] == value[start..j];
    PrefixUnits(rest, i - start, j - start);
  }

  lemma SizeOfNothing(value: Units, start: nat)
    requires start <= |value|
    ensures Size(value, start, start) == 0
  {}

  /** A piece fits, unless it is a single unit. */
  predicate Fits(value: Units, start: nat, end: nat, maxBytes: nat)
    requires start <= end <= |value|
  {
    Size(value, start, end) <= maxBytes || end == start + 1
  }

  /** The end of the longest chunk that starts at `start` and fits, found by bisection. */
  method ChunkEnd(value: Units, start: nat, maxBytes: nat) returns (end: nat)
    requires start < |value|
    ensures start < end <= |value| && Fits(value, start, end, maxBytes)
    ensures end == |value| || Size(value, start, end + 1) > maxBytes
  {
    var low := start + 1;
    var high := if |value| < start + maxBytes then |value| else start + maxBytes;
    end := low;
    SizeOfNothing(value, start);
    if high < |value| {
      SizeGrows(value, start, start, high + 1);
    }
    while low <= high
      invariant start < end <= |value| && start < low <= high + 1 && start <= high <= |value|
      invariant (low == start + 1 && end == low) || (end == low - 1 && Size(value, start, end) <= maxBytes)
      invariant high == |value| || Size(value, start, high + 1) > maxBytes
      decreases high + 1 - low
    {
      var middle := (low + high) / 2;
      if Size(value, start, middle) <= maxBytes {
        end := middle;
        low := middle + 1;
      } else {
        high := middle - 1;
      }
    }
    if end == high + 1 && end < |value| {
      SizeGrows(value, start, end, end + 1);
    }
  }

  /** The end of the next chunk, a unit earlier where it would part a pair; none if nothing is left of it. */
  method NextChunk(value: Units, start: nat, maxBytes: nat) returns (end: Option<nat>)
    requires start < |value|
    ensures maxBytes >= 6 ==> end.Some?
    ensures end.Some? ==> start < end.value <= |value| && Fits(value, start, end.value, maxBytes)
    ensures end.Some? ==> Unparted(value[start..end.value], value[end.value..])
  {
    var e := ChunkEnd(value, start, maxBytes);
    SizeOfNothing(value, start);
    if e < |value| && IsHigh(value[e - 1]) {
      SizeGrows(value, start, start, e + 1);
      SizeGrows(value, start, e - 1, e);
      e := e - 1;
    }
    end := if e <= start then None else Some(e);
  }

  /** The chunks are parts that fit. */
  ghost predicate Chunked(chunks: seq<Units>, maxBytes: nat) {
    AreParts(chunks) && forall i :: 0 <= i < |chunks| ==> EncodedBytes(chunks[i]) <= maxBytes || |chunks[i]| == 1
  }

  /** The text is cut up to here, and not inside a pair. */
  ghost predicate CutUpTo(value: Units, chunks: seq<Units>, start: nat, maxBytes: nat)
    requires start <= |value|
  {
    && Join(chunks) == value[..start] && Chunked(chunks, maxBytes)
    && (chunks != [] ==> Unparted(chunks[|chunks| - 1], value[start..]))
  }

  lemma CutFurther(value: Units, chunks: seq<Units>, start: nat, end: nat, maxBytes: nat)
    requires start < end <= |value| && CutUpTo(value, chunks, start, maxBytes)
    requires Fits(value, start, end, maxBytes) && Unparted(value[start..end], value[end..])
    ensures CutUpTo(value, chunks + [value[start..end]], end, maxBytes)
  {
    var chunk := value[start..end];
    JoinAppend(chunks, chunk);
    assert value[..start] + chunk == value[..end];
    assert chunks != [] ==> Unparted(chunks[|chunks| - 1], chunk);
  }

  /** Splits a text into chunks that part no surrogate pair and join back to it. */
  method SplitChunks(value: Units, maxBytes: nat) returns (result: Result<seq<Units>, SplitError>)
    ensures maxBytes >= 6 ==> result.Ok?
    ensures result.Ok? ==> Join(result.value) == value && (value != [] ==> Chunked(result.value, maxBytes))
  {
    if EncodedBytes(value) <= maxBytes {
      JoinAppend([], value);
      assert [] + [value] == [value];
      return Ok([value]);
    }
    var chunks: seq<Units> := [];
    var start := 0;
    while start < |value|
      invariant 0 <= start <= |value| && CutUpTo(value, chunks, start, maxBytes)
      decreases |value| - start
    {
      var end := NextChunk(value, start, maxBytes);
      if end.None? {
        return Err(CouldNotSplit);
      }
      CutFurther(value, chunks, start, end.value, maxBytes);
      chunks := chunks + [value[start..end.value]];
      start := end.value;
    }
    assert value[..|value|] == value;
    return Ok(chunks);
  }

  // ---- texts of characters ----

  /** The code units of a character. */
  function UnitsOfChar(c: char): Units {
    var code := c as int;
    if code < 0x1_0000 then [code] else [0xd800 + (code - 0x1_0000) / 0x400, 0xdc00 + (code - 0x1_0000) % 0x400]
  }

  function UnitsOf(s: string): Units {
    if s == [] then [] else UnitsOf(s[..|s| - 1]) + UnitsOfChar(s[|s| - 1])
  }

  /** Characters are never half a pair, so counting by characters and by units agree. */
  lemma {:induction false} SameBytes(s: string)
    ensures EncodedBytes(UnitsOf(s)) == ByteLength(s)
    ensures UnitsOf(s) != [] ==> !IsHigh(UnitsOf(s)[|UnitsOf(s)| - 1])
  {
    if s != [] {
      SameBytes(s[..|s| - 1]);
      var before, c := UnitsOf(s[..|s| - 1]), s[|s| - 1];
      UnpartedBytes(before, UnitsOfChar(c));
      CharUnits(c);
    }
  }

  lemma OneUnit(u: CodeUnit)
    ensures EncodedBytes([u]) == Added([], u)
  {
    assert [u][..0] == [];
  }

  lemma TwoUnits(u: CodeUnit, v: CodeUnit)
    ensures EncodedBytes([u, v]) == Added([], u) + Added([u], v)
  {
    OneUnit(u);
    assert [u, v][..1] == [u];
  }

  lemma CharUnits(c: char)
    ensures EncodedBytes(UnitsOfChar(c)) == CharBytes(c) && !IsHigh(UnitsOfChar(c)[|UnitsOfChar(c)| - 1])
  {
    var u := UnitsOfChar(c);
    if |u| == 1 {
      OneUnit(u[0]);
      assert u == [u[0]];
    } else {
      TwoUnits(u[0], u[1]);
      assert u == [u[0], u[1]];
    }
  }
}
