/** Text in pieces that fit a message (chunkText of keys.js); a text is a sequence of UTF-16 units. */
module Chunks {
  type Text = seq<nat>

  predicate IsHigh(unit: nat) {
    0xd800 <= unit <= 0xdbff
  }

  predicate IsLow(unit: nat) {
    0xdc00 <= unit <= 0xdfff
  }

  /** Where the chunk from `start` ends. */
  function ChunkEnd(text: Text, start: nat, size: nat): (end: int)
    requires start < |text|
    ensures start - 1 <= end <= |text|
  {
    var end := if start + size < |text| then start + size else |text|;
    if 0 < end < |text| && IsHigh(text[end - 1]) then end - 1 else end
  }

  /** The text has a high surrogate before its last unit. */
  predicate HasInnerHigh(text: Text) {
    exists i :: 0 <= i < |text| - 1 && IsHigh(text[i])
  }

  /** What a caller can check: the loop moves on with every chunk. */
  predicate Moves(text: Text, size: nat) {
    text == [] || size >= 2 || (size == 1 && !HasInnerHigh(text))
  }

  lemma EveryChunkMovesOn(text: Text, start: nat, size: nat)
    requires start < |text| && Moves(text, size)
    ensures start < ChunkEnd(text, start, size)
  {
  }

  /** The chunks from `start` on. */
  function ChunksFrom(text: Text, start: nat, size: nat): seq<Text>
    requires start <= |text| && Moves(text, size)
    decreases |text| - start
  {
    if start == |text| then [] else
    EveryChunkMovesOn(text, start, size);
    var end := ChunkEnd(text, start, size);
    [text[start..end]] + ChunksFrom(text, end, size)
  }

  function Concat(chunks: seq<Text>): Text {
    if chunks == [] then [] else chunks[0] + Concat(chunks[1..])
  }

  /** The chunks put together are the text. */
  lemma {:induction false} ChunksUndo(text: Text, start: nat, size: nat)
    requires start <= |text| && Moves(text, size)
    ensures Concat(ChunksFrom(text, start, size)) == text[start..]
    decreases |text| - start
  {
    if start < |text| {
      EveryChunkMovesOn(text, start, size);
      var end := ChunkEnd(text, start, size);
      ChunksUndo(text, end, size);
      var rest := ChunksFrom(text, end, size);
      assert ([text[start..end]] + rest)[1..] == rest;
    }
  }

  predicate Whole(first: Text, second: Text) {
    |first| > 0 && |second| > 0 && !(IsHigh(first[|first| - 1]) && IsLow(second[0]))
  }

  /** No boundary between two chunks parts a pair of surrogates. */
  ghost predicate PairsStayWhole(chunks: seq<Text>) {
    forall k, n :: 0 <= k && n == k + 1 < |chunks| ==>
      Whole(chunks[k], chunks[n])
  }

  /** The first of two chunks is full, or one short for the sake of a pair. */
  predicate Filled(first: Text, second: Text, size: nat) {
    |first| == size || (|first| == size - 1 && |second| > 0 && IsHigh(second[0]))
  }

  /** Chunks are not empty and fit; all but the last are full, or one short for the sake of a pair. */
  ghost predicate Fit(chunks: seq<Text>, size: nat) {
    && (forall k :: 0 <= k < |chunks| ==> 1 <= |chunks[k]| <= size)
    && (forall k, n :: 0 <= k && n == k + 1 < |chunks| ==>
          Filled(chunks[k], chunks[n], size))
  }

  /** What holds between a first chunk and the ones after it. */
  ghost predicate Joins(first: Text, rest: seq<Text>, size: nat) {
    && 1 <= |first| <= size
    && (rest != [] ==>
          && Whole(first, rest[0])
          && Filled(first, rest[0], size))
  }

  lemma ConsStaysWhole(first: Text, rest: seq<Text>, size: nat)
    requires Joins(first, rest, size) && PairsStayWhole(rest)
    ensures PairsStayWhole([first] + rest)
  {
    var chunks := [first] + rest;
    forall k, n | 0 <= k && n == k + 1 < |chunks|
      ensures Whole(chunks[k], chunks[n])
    {
      assert chunks[n] == rest[k] && (k > 0 ==> chunks[k] == rest[k - 1]);
    }
  }

  lemma ConsFits(first: Text, rest: seq<Text>, size: nat)
    requires Joins(first, rest, size) && Fit(rest, size)
    ensures Fit([first] + rest, size)
  {
    var chunks := [first] + rest;
    forall k | 0 <= k < |chunks| ensures 1 <= |chunks[k]| <= size {
      assert k > 0 ==> chunks[k] == rest[k - 1];
    }
    forall k, n | 0 <= k && n == k + 1 < |chunks|
      ensures Filled(chunks[k], chunks[n], size)
    {
      assert chunks[n] == rest[k] && (k > 0 ==> chunks[k] == rest[k - 1]);
    }
  }

  lemma BoundaryParts(text: Text, start: nat, size: nat)
    requires start < |text| && Moves(text, size) && ChunkEnd(text, start, size) < |text|
    ensures var end := ChunkEnd(text, start, size);
            && !(IsHigh(text[end - 1]) && IsLow(text[end]))
            && (end - start == size || (end - start == size - 1 && IsHigh(text[end])))
  {
  }

  /** The next chunk begins where this one ends. */
  lemma FirstUnit(text: Text, start: nat, size: nat)
    requires start < |text| && Moves(text, size)
    ensures var chunks := ChunksFrom(text, start, size);
            chunks != [] && |chunks[0]| > 0 && chunks[0][0] == text[start]
  {
    EveryChunkMovesOn(text, start, size);
  }

  lemma {:induction false} ChunksFit(text: Text, start: nat, size: nat)
    requires start <= |text| && Moves(text, size)
    ensures PairsStayWhole(ChunksFrom(text, start, size)) && Fit(ChunksFrom(text, start, size), size)
    decreases |text| - start
  {
    if start < |text| {
      EveryChunkMovesOn(text, start, size);
      var end := ChunkEnd(text, start, size);
      ChunksFit(text, end, size);
      var first, rest := text[start..end], ChunksFrom(text, end, size);
      if end < |text| {
        BoundaryParts(text, start, size);
        FirstUnit(text, end, size);
        assert first[|first| - 1] == text[end - 1];
      }
      ConsStaysWhole(first, rest, size);
      ConsFits(first, rest, size);
    }
  }

  lemma NextChunk(text: Text, start: nat, size: nat, before: seq<Text>)
    requires start < |text| && Moves(text, size)
    ensures var end := ChunkEnd(text, start, size);
            start < end <= |text| &&
            before + ChunksFrom(text, start, size) == before + [text[start..end]] + ChunksFrom(text, end, size)
  {
    EveryChunkMovesOn(text, start, size);
  }

  method ChunkText(text: Text, size: nat) returns (chunks: seq<Text>)
    requires Moves(text, size)
    ensures Concat(chunks) == text && Fit(chunks, size) && PairsStayWhole(chunks)
    ensures chunks == ChunksFrom(text, 0, size)
  {
    chunks := [];
    var start := 0;
    while start < |text|
      invariant 0 <= start <= |text|
      invariant chunks + ChunksFrom(text, start, size) == ChunksFrom(text, 0, size)
      decreases |text| - start
    {
      var end := if start + size < |text| then start + size else |text|;
      if end < |text| && IsHigh(text[end - 1]) {
        end := end - 1;
      }
      assert end == ChunkEnd(text, start, size);
      NextChunk(text, start, size, chunks);
      chunks := chunks + [text[start..end]];
      start := end;
    }
    assert chunks == ChunksFrom(text, 0, size);
    ChunksUndo(text, 0, size);
    ChunksFit(text, 0, size);
  }

  /** `start` is reached from 0 by chunks that move on. */
  ghost predicate Reached(text: Text, size: nat, start: nat)
    decreases start
  {
    || start == 0
    || exists before: nat ::
         before < start && before < |text| && ChunkEnd(text, before, size) == start && Reached(text, size, before)
  }

  ghost predicate GetsStuck(text: Text, size: nat) {
    exists start: nat :: start < |text| && Reached(text, size, start) && ChunkEnd(text, start, size) <= start
  }

  /** The loop gets to a place that it never leaves exactly when the condition does not hold. */
  lemma StuckIffNot(text: Text, size: nat)
    ensures GetsStuck(text, size) <==> !Moves(text, size)
  {
    if Moves(text, size) {
      forall start: nat | start < |text| ensures start < ChunkEnd(text, start, size) {
        EveryChunkMovesOn(text, start, size);
      }
    } else if size == 0 {
      assert Reached(text, size, 0) && ChunkEnd(text, 0, size) <= 0;
    } else {
      var i: nat :| i < |text| - 1 && IsHigh(text[i]);
      OneByOne(text, i);
    }
  }

  lemma {:induction false} OneByOne(text: Text, i: nat)
    requires i < |text| - 1 && IsHigh(text[i])
    ensures GetsStuck(text, 1)
    decreases i
  {
    if j: nat :| j < i && IsHigh(text[j]) {
      OneByOne(text, j);
    } else {
      StepsOfOne(text, i);
      assert ChunkEnd(text, i, 1) <= i;
    }
  }

  lemma {:induction false} StepsOfOne(text: Text, i: nat)
    requires i < |text| && forall j :: 0 <= j < i ==> !IsHigh(text[j])
    ensures Reached(text, 1, i)
    decreases i
  {
    if i > 0 {
      StepsOfOne(text, i - 1);
      assert ChunkEnd(text, i - 1, 1) == i;
    }
  }
}
