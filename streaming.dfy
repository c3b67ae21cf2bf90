/** The streaming emulation of `astreaming`: the finished completion text is
    cut into fixed-size chunks, each with its index; only the last chunk is
    marked finished and carries the finish reason. */
module Streaming {
  import opened Wrappers
  import opened Call

  /** Characters per chunk. */
  const CHUNK_SIZE: nat := 50

  /** A streamed chunk; the usage is attached to every chunk. */
  datatype Chunk = Chunk(text: string, index: nat, isFinished: bool, finishReason: Option<FinishReason>, usage: Usage)

  function Min(a: int, b: int): int { if a <= b then a else b }

  /** The chunks the loop of lines 254-265 yields from offset `start` on,
      numbering them from `index`. */
  function ChunksFrom(text: string, size: nat, start: nat, index: nat, finishReason: FinishReason, usage: Usage)
    : seq<Chunk>
    requires size > 0
    decreases |text| - start
  {
    if start >= |text| then []
    else
      var isFinal := start + size >= |text|;
      [Chunk(text[start..Min(start + size, |text|)], index, isFinal, if isFinal then Some(finishReason) else None, usage)]
        + ChunksFrom(text, size, start + size, index + 1, finishReason, usage)
  }

  /** All chunks of `text`. */
  function Chunks(text: string, size: nat, finishReason: FinishReason, usage: Usage): seq<Chunk>
    requires size > 0
  {
    ChunksFrom(text, size, 0, 0, finishReason, usage)
  }

  /** The chunk texts joined in order. */
  function Concat(chunks: seq<Chunk>): string {
    if chunks == [] then [] else chunks[0].text + Concat(chunks[1..])
  }

  /** The loop of `astreaming`: the chunks, in the order they are yielded. */
  method EmitChunks(text: string, size: nat, finishReason: FinishReason, usage: Usage) returns (chunks: seq<Chunk>)
    requires size > 0
    ensures chunks == Chunks(text, size, finishReason, usage)
  {
    chunks := [];
    var start := 0;
    var idx := 0;
    while start < |text|
      invariant chunks + ChunksFrom(text, size, start, idx, finishReason, usage) == Chunks(text, size, finishReason, usage)
      decreases |text| - start
    {
      var chunkText := text[start..Min(start + size, |text|)];
      var isFinal := start + size >= |text|;
      var chunk := Chunk(chunkText, idx, isFinal, if isFinal then Some(finishReason) else None, usage);
      assert ChunksFrom(text, size, start, idx, finishReason, usage)
          == [chunk] + ChunksFrom(text, size, start + size, idx + 1, finishReason, usage);
      chunks := chunks + [chunk];
      start := start + size;
      idx := idx + 1;
    }
  }

  lemma {:induction false} ConcatFrom(text: string, size: nat, start: nat, index: nat, finishReason: FinishReason, usage: Usage)
    requires size > 0
    ensures Concat(ChunksFrom(text, size, start, index, finishReason, usage)) == if start < |text| then text[start..] else []
    decreases |text| - start
  {
    if start < |text| {
      ConcatFrom(text, size, start + size, index + 1, finishReason, usage);
      var cs := ChunksFrom(text, size, start, index, finishReason, usage);
      assert cs[1..] == ChunksFrom(text, size, start + size, index + 1, finishReason, usage);
      if start + size < |text| {
        assert text[start..] == text[start..start + size] + text[start + size..];
      }
    }
  }

  /** Joining the chunk texts in index order gives back the text exactly. */
  lemma ConcatRoundTrip(text: string, size: nat, finishReason: FinishReason, usage: Usage)
    requires size > 0
    ensures Concat(Chunks(text, size, finishReason, usage)) == text
  {
    ConcatFrom(text, size, 0, 0, finishReason, usage);
  }

  lemma {:induction false} ShapeFrom(text: string, size: nat, start: nat, index: nat, finishReason: FinishReason, usage: Usage)
    requires size > 0
    ensures var cs := ChunksFrom(text, size, start, index, finishReason, usage);
      && (|cs| == 0 <==> start >= |text|)
      && (start < |text| ==> (|cs| - 1) * size < |text| - start <= |cs| * size)
      && forall i :: 0 <= i < |cs| ==>
           && cs[i].index == index + i
           && 0 < |cs[i].text| <= size
           && (i < |cs| - 1 ==> |cs[i].text| == size)
           && cs[i].usage == usage
           && (cs[i].isFinished <==> i == |cs| - 1)
           && (cs[i].finishReason.Some? <==> i == |cs| - 1)
           && (i == |cs| - 1 ==> cs[i].finishReason == Some(finishReason))
    decreases |text| - start
  {
    if start < |text| {
      ShapeFrom(text, size, start + size, index + 1, finishReason, usage);
      var cs := ChunksFrom(text, size, start, index, finishReason, usage);
      var rest := ChunksFrom(text, size, start + size, index + 1, finishReason, usage);
      assert cs == [cs[0]] + rest;
      assert |cs| * size == size + |rest| * size;
    }
  }

  /** The chunks are numbered 0..n-1 with n = ceil(len / size); each holds
      between 1 and `size` characters, and all but the last exactly `size`; only the last one is finished and it
      alone carries the finish reason; every chunk carries the usage. An
      empty text yields no chunk. */
  lemma ChunksShape(text: string, size: nat, finishReason: FinishReason, usage: Usage)
    requires size > 0
    ensures var cs := Chunks(text, size, finishReason, usage);
      && |cs| == (|text| + size - 1) / size
      && (|cs| == 0 <==> text == [])
      && forall i :: 0 <= i < |cs| ==>
           && cs[i].index == i
           && 0 < |cs[i].text| <= size
           && (i < |cs| - 1 ==> |cs[i].text| == size)
           && cs[i].usage == usage
           && (cs[i].isFinished <==> i == |cs| - 1)
           && (cs[i].finishReason.Some? <==> i == |cs| - 1)
           && (i == |cs| - 1 ==> cs[i].finishReason == Some(finishReason))
  {
    ShapeFrom(text, size, 0, 0, finishReason, usage);
    var n := |Chunks(text, size, finishReason, usage)|;
    if n > 0 {
      CeilDivUnique(|text|, size, n);
    }
  }

  lemma MulMonotone(a: nat, b: nat, c: nat)
    requires a <= b
    ensures a * c <= b * c
  {
  }

  /** `n` is the ceiling of `len / size` when (n-1)*size < len <= n*size. */
  lemma CeilDivUnique(len: nat, size: nat, n: nat)
    requires size > 0 && n > 0
    requires (n - 1) * size < len <= n * size
    ensures n == (len + size - 1) / size
  {
    var q := (len + size - 1) / size;
    var r := (len + size - 1) % size;
    assert len + size - 1 == q * size + r && 0 <= r < size;
    if q < n {
      MulMonotone(q, n - 1, size);
      assert false;
    }
    if q > n {
      MulMonotone(n + 1, q, size);
      assert false;
    }
  }
}
