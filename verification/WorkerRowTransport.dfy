/** Rows sent to a worker in bounded chunks. */
module WorkerRowTransport {
  const ROWS_PER_MESSAGE := 5000

  type Row = string

  datatype Chunk = Chunk(rows: seq<Row>, append: bool, complete: bool)

  function Min(a: nat, b: nat): nat {
    if a <= b then a else b
  }

  /** The chunks from `offset` on; a season without rows is still one chunk. */
  function ChunksFrom(rows: seq<Row>, offset: nat): (r: seq<Chunk>)
    requires offset <= |rows|
    decreases |rows| - offset
  {
    if offset == |rows| then []
    else
      var end := Min(offset + ROWS_PER_MESSAGE, |rows|);
      [Chunk(rows[offset..end], offset > 0, offset + ROWS_PER_MESSAGE >= |rows|)] + ChunksFrom(rows, end)
  }

  function Chunks(rows: seq<Row>): seq<Chunk> {
    if |rows| <= ROWS_PER_MESSAGE then [Chunk(rows, false, true)] else ChunksFrom(rows, 0)
  }

  function Flatten(chunks: seq<Chunk>): seq<Row> {
    if chunks == [] then [] else Flatten(chunks[..|chunks| - 1]) + chunks[|chunks| - 1].rows
  }

  /** Only the first chunk replaces, only the last completes, and none is too large. */
  predicate WellFormed(chunks: seq<Chunk>) {
    && chunks != []
    && forall i :: 0 <= i < |chunks| ==>
         (chunks[i].append <==> i > 0) && (chunks[i].complete <==> i == |chunks| - 1)
         && |chunks[i].rows| <= ROWS_PER_MESSAGE && (|chunks| > 1 ==> chunks[i].rows != [])
  }

  lemma {:induction false} FlattenConcat(a: seq<Chunk>, b: seq<Chunk>)
    ensures Flatten(a + b) == Flatten(a) + Flatten(b)
  {
    if b == [] {
      assert a + b == a;
    } else {
      assert (a + b)[..|a + b| - 1] == a + b[..|b| - 1];
      FlattenConcat(a, b[..|b| - 1]);
    }
  }

  lemma {:induction false} FlattenOne(chunk: Chunk)
    ensures Flatten([chunk]) == chunk.rows
  {
    assert Flatten([chunk][..0]) == [];
  }

  lemma {:induction false} ChunksFromCover(rows: seq<Row>, offset: nat)
    requires offset <= |rows|
    ensures Flatten(ChunksFrom(rows, offset)) == rows[offset..]
    ensures forall i :: 0 <= i < |ChunksFrom(rows, offset)| ==>
      var chunk := ChunksFrom(rows, offset)[i];
      (chunk.append <==> offset > 0 || i > 0) && (chunk.complete <==> i == |ChunksFrom(rows, offset)| - 1)
      && 0 < |chunk.rows| <= ROWS_PER_MESSAGE
    ensures offset < |rows| ==> ChunksFrom(rows, offset) != []
    decreases |rows| - offset
  {
    if offset < |rows| {
      var end := Min(offset + ROWS_PER_MESSAGE, |rows|);
      var first := Chunk(rows[offset..end], offset > 0, offset + ROWS_PER_MESSAGE >= |rows|);
      ChunksFromCover(rows, end);
      FlattenConcat([first], ChunksFrom(rows, end));
      FlattenOne(first);
      assert rows[offset..end] + rows[end..] == rows[offset..];
    }
  }

  /** The chunks put together are the rows, in order. */
  lemma {:induction false} ChunksCover(rows: seq<Row>)
    ensures Flatten(Chunks(rows)) == rows && WellFormed(Chunks(rows))
  {
    if |rows| <= ROWS_PER_MESSAGE {
      FlattenOne(Chunk(rows, false, true));
    } else {
      ChunksFromCover(rows, 0);
      assert rows[0..] == rows;
    }
  }

  lemma {:induction false} ChunksFromFull(rows: seq<Row>, offset: nat, i: nat)
    requires offset <= |rows| && i < |ChunksFrom(rows, offset)|
    ensures |ChunksFrom(rows, offset)[i].rows| ==
      if i < |ChunksFrom(rows, offset)| - 1 then 5000 else |rows| - offset - 5000 * i
    decreases i
  {
    var end := Min(offset + ROWS_PER_MESSAGE, |rows|);
    if i > 0 {
      ChunksFromFull(rows, end, i - 1);
    } else if end < |rows| {
      assert ChunksFrom(rows, end) != [];
    }
  }

  /** Every chunk but the last is full. */
  lemma {:induction false} ChunksAreFull(rows: seq<Row>, i: nat)
    requires i < |Chunks(rows)|
    ensures |Chunks(rows)[i].rows| == if i < |Chunks(rows)| - 1 then 5000 else |rows| - 5000 * i
  {
    if |rows| > ROWS_PER_MESSAGE { ChunksFromFull(rows, 0, i); }
  }

  /** A proper prefix of the chunks never amounts to all rows. */
  lemma {:induction false} PrefixIsShorter(rows: seq<Row>, p: nat)
    requires p <= |Chunks(rows)|
    ensures Flatten(Chunks(rows)[..p]) <= rows
    ensures Flatten(Chunks(rows)[..p]) == rows && p > 0 ==> p == |Chunks(rows)|
  {
    hide Flatten, Chunks;
    var chunks := Chunks(rows);
    ChunksCover(rows);
    FlattenConcat(chunks[..p], chunks[p..]);
    assert chunks[..p] + chunks[p..] == chunks;
    if 0 < p < |chunks| {
      assert chunks[p..][0] == chunks[p];
      FlattenNonEmpty(chunks[p..]);
    }
  }

  lemma {:induction false} FlattenNonEmpty(chunks: seq<Chunk>)
    requires chunks != [] && chunks[0].rows != []
    ensures Flatten(chunks) != []
  {
    FlattenConcat([chunks[0]], chunks[1..]);
    FlattenOne(chunks[0]);
    assert [chunks[0]] + chunks[1..] == chunks;
  }

  /** `active(k)` is the answer when the k-th message is about to be sent: what goes out is a prefix of the chunks. */
  method SendWorkerRows(rows: seq<Row>, active: nat -> bool) returns (sent: seq<Chunk>)
    ensures sent <= Chunks(rows)
    ensures forall k :: 0 <= k < |sent| ==> active(k)
    ensures |sent| < |Chunks(rows)| ==> !active(|sent|)
  {
    hide Flatten, ChunksFrom;
    sent := [];
    if !active(0) { return; }
    if |rows| <= ROWS_PER_MESSAGE {
      return [Chunk(rows, false, true)];
    }
    var offset := 0;
    while offset < |rows| && active(|sent|)
      invariant offset <= |rows|
      invariant sent + ChunksFrom(rows, offset) == Chunks(rows)
      invariant forall k :: 0 <= k < |sent| ==> active(k)
      decreases |rows| - offset
    {
      var end := Min(offset + ROWS_PER_MESSAGE, |rows|);
      var chunk := Chunk(rows[offset..end], offset > 0, offset + ROWS_PER_MESSAGE >= |rows|);
      NextChunk(rows, offset, sent);
      sent := sent + [chunk];
      offset := end;
    }
    NoMoreChunks(rows, sent);
  }

  lemma {:induction false} NextChunk(rows: seq<Row>, offset: nat, sent: seq<Chunk>)
    requires offset < |rows|
    ensures var end := Min(offset + ROWS_PER_MESSAGE, |rows|);
      var chunk := Chunk(rows[offset..end], offset > 0, offset + ROWS_PER_MESSAGE >= |rows|);
      sent + ChunksFrom(rows, offset) == (sent + [chunk]) + ChunksFrom(rows, end)
  {
    hide Flatten;
  }

  lemma {:induction false} NoMoreChunks(rows: seq<Row>, sent: seq<Chunk>)
    ensures sent + ChunksFrom(rows, |rows|) == sent
  {
  }
}
