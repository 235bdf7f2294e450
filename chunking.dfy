/**
 * Chunk-oriented processing as both steps of `importUserJob` configure it
 * with `chunk(10)`: the step pulls items from its reader one at a time until
 * it holds ten of them or the reader is exhausted, hands the chunk to the
 * writer as one unit, and repeats until a pull yields nothing.
 */
module Chunking {
  import opened Wrappers

  /** The commit interval of step1 and step2. */
  const ChunkSize: nat := 10

  /**
   * What an item reader returns, position by position: `items` in order and
   * then end of input, except that asking for position `failAt` throws (a
   * malformed XML fragment, a failing database cursor).
   */
  datatype Input<T> = Input(items: seq<T>, failAt: Option<nat>)

  /** One pull from a reader: an item, end of input (`null`), or an exception. */
  datatype ReadResult<T> = Item(item: T) | End | ReadError

  /** One `read()` at position `i`: the exception at `failAt`, else the item there, else end of input. */
  function ReadAt<T>(inp: Input<T>, i: nat): (r: ReadResult<T>)
    ensures r.ReadError? <==> inp.failAt == Some(i)
    ensures r.Item? <==> inp.failAt != Some(i) && i < |inp.items|
    ensures r.Item? ==> r.item == inp.items[i]
  {
    if inp.failAt == Some(i) then ReadError
    else if i < |inp.items| then Item(inp.items[i])
    else End
  }

  /** The reader throws before it reaches the end of its items. */
  predicate Fails<T>(inp: Input<T>)
  {
    inp.failAt.Some? && inp.failAt.value <= |inp.items|
  }

  /** The items the reader returns before it reports end of input or throws. */
  function Read<T>(inp: Input<T>): (r: seq<T>)
    ensures |r| <= |inp.items| && r == inp.items[..|r|]
    ensures Fails(inp) ==> |r| == inp.failAt.value
    ensures !Fails(inp) ==> r == inp.items
  {
    if Fails(inp) then inp.items[..inp.failAt.value] else inp.items
  }

  /**
   * The items that reach the writer: everything read when the reader is
   * exhausted normally; when it throws, only the chunks completed before the
   * failing one (the items of the failing chunk are rolled back).
   */
  function Delivered<T>(inp: Input<T>): (d: seq<T>)
    ensures |d| <= |Read(inp)| && d == Read(inp)[..|d|]
    ensures !Fails(inp) ==> d == inp.items
    ensures Fails(inp) ==> |d| % ChunkSize == 0 && |Read(inp)| - |d| < ChunkSize
  {
    var r := Read(inp);
    if Fails(inp) then r[..|r| - |r| % ChunkSize] else r
  }

  /** Pulling a position up to the read limit gives the read item there, and at the limit the end or the error. */
  lemma ReadAtLimit<T>(inp: Input<T>, i: nat)
    requires i <= |Read(inp)|
    ensures i < |Read(inp)| ==> ReadAt(inp, i) == Item(Read(inp)[i])
    ensures i == |Read(inp)| ==> ReadAt(inp, i) == (if Fails(inp) then ReadError else End)
  {
  }

  /**
   * `chunk` and `failed` are what the chunk provider returns when it starts
   * after the first `pos` items: up to ChunkSize pulls, stopping early at end
   * of input or at an exception.
   */
  ghost predicate NextChunk<T>(inp: Input<T>, pos: nat, chunk: seq<T>, failed: bool)
  {
    var r := Read(inp);
    && pos <= |r|
    && |chunk| == (if |r| - pos < ChunkSize then |r| - pos else ChunkSize)
    && chunk == r[pos..pos + |chunk|]
    && (failed <==> Fails(inp) && |r| - pos < ChunkSize)
  }

  /** A chunk boundary: a multiple of ChunkSize, or the end of a reader that does not fail. */
  predicate AtBoundary<T>(inp: Input<T>, pos: nat)
  {
    pos <= |Read(inp)| && (pos % ChunkSize == 0 || (pos == |Read(inp)| && !Fails(inp)))
  }

  /**
   * The state of a chunk provider part-way through: the pulls so far
   * returned `chunk`, the items after the first `pos`; `failed` and
   * `exhausted` record a pull that threw or found end of input.
   */
  ghost predicate Pulling<T>(inp: Input<T>, pos: nat, chunk: seq<T>, failed: bool, exhausted: bool)
  {
    var r := Read(inp);
    && |chunk| <= ChunkSize && pos + |chunk| <= |r|
    && chunk == r[pos..pos + |chunk|]
    && (failed ==> Fails(inp) && pos + |chunk| == |r| && |chunk| < ChunkSize)
    && (exhausted ==> !Fails(inp) && pos + |chunk| == |r| && |chunk| < ChunkSize)
  }

  /** One more pull while fewer than ChunkSize items are held. */
  lemma PullStep<T>(inp: Input<T>, pos: nat, chunk: seq<T>, res: ReadResult<T>)
    requires Pulling(inp, pos, chunk, false, false) && |chunk| < ChunkSize
    requires res == ReadAt(inp, pos + |chunk|)
    ensures res.Item? ==> Pulling(inp, pos, chunk + [res.item], false, false)
    ensures res.End? ==> Pulling(inp, pos, chunk, false, true)
    ensures res.ReadError? ==> Pulling(inp, pos, chunk, true, false)
  {
    ReadAtLimit(inp, pos + |chunk|);
    if res.Item? {
      var r := Read(inp);
      assert chunk + [res.item] == r[pos..pos + |chunk| + 1];
    }
  }

  /** When the pulls stop, the chunk is the next one. */
  lemma PullDone<T>(inp: Input<T>, pos: nat, chunk: seq<T>, failed: bool, exhausted: bool)
    requires Pulling(inp, pos, chunk, failed, exhausted)
    requires |chunk| == ChunkSize || failed || exhausted
    ensures NextChunk(inp, pos, chunk, failed)
  {
  }

  /** The chunk provider of a step whose reader has no side effects. */
  method ReadChunk<T>(inp: Input<T>, pos: nat) returns (chunk: seq<T>, failed: bool)
    requires pos <= |Read(inp)|
    ensures NextChunk(inp, pos, chunk, failed)
  {
    chunk, failed := [], false;
    var exhausted := false;
    while |chunk| < ChunkSize && !failed && !exhausted
      invariant Pulling(inp, pos, chunk, failed, exhausted)
      decreases ChunkSize - |chunk|, !failed && !exhausted
    {
      var res := ReadAt(inp, pos + |chunk|);
      PullStep(inp, pos, chunk, res);
      match res
      case Item(x) => chunk := chunk + [x];
      case End => exhausted := true;
      case ReadError => failed := true;
    }
    PullDone(inp, pos, chunk, failed, exhausted);
  }

  /**
   * What the stage runner concludes from one chunk taken at a boundary: a
   * failure ends the step with the items before the chunk delivered; an
   * empty chunk ends it with everything delivered; otherwise the chunk
   * becomes the next writer call and its end is again a boundary.
   */
  lemma {:induction false} AfterChunk<T>(inp: Input<T>, pos: nat, done: seq<T>, writes: seq<seq<T>>,
                                         chunk: seq<T>, failed: bool)
    requires Staged(inp, pos, done, writes) && NextChunk(inp, pos, chunk, failed)
    ensures done + chunk == Read(inp)[..pos + |chunk|]
    ensures failed ==> Fails(inp) && Delivered(inp) == done && done + chunk == Read(inp)
    ensures !failed && |chunk| == 0 ==> !Fails(inp) && Delivered(inp) == done && done == Read(inp)
    ensures !failed && |chunk| > 0 ==> Staged(inp, pos + |chunk|, done + chunk, writes + [chunk])
  {
    var r := Read(inp);
    assert r[..pos] + chunk == r[..pos + |chunk|];
    if !failed && |chunk| > 0 {
      ChunksAppend(r[..pos], chunk);
    }
  }

  /**
   * The state of a step between chunks: `pos` items read, all of them
   * (`done`) handed to the writer, as the calls `writes`.
   */
  ghost predicate Staged<T>(inp: Input<T>, pos: nat, done: seq<T>, writes: seq<seq<T>>)
  {
    AtBoundary(inp, pos) && done == Read(inp)[..pos] && writes == Chunks(done)
  }

  /**
   * Regrouping a concatenation. Stated once, generically, so that the step
   * loops regroup their table and file contents without unfolding the
   * element type.
   */
  lemma AppendAssoc<T>(a: seq<T>, b: seq<T>, c: seq<T>)
    ensures (a + b) + c == a + (b + c)
  {
  }

  /** The writer calls of a reader that is exhausted normally after `s`. */
  function Chunks<T>(s: seq<T>): (cs: seq<seq<T>>)
    decreases |s|
  {
    if |s| == 0 then []
    else if |s| <= ChunkSize then [s]
    else [s[..ChunkSize]] + Chunks(s[ChunkSize..])
  }

  function Flatten<T>(cs: seq<seq<T>>): seq<T>
  {
    if |cs| == 0 then [] else cs[0] + Flatten(cs[1..])
  }

  /** Concatenating the chunks gives back the reader's items in order. */
  lemma {:induction false} ChunksFlatten<T>(s: seq<T>)
    ensures Flatten(Chunks(s)) == s
    decreases |s|
  {
    if ChunkSize < |s| {
      var cs := Chunks(s);
      ChunksFlatten(s[ChunkSize..]);
      assert cs[1..] == Chunks(s[ChunkSize..]);
      assert s == s[..ChunkSize] + s[ChunkSize..];
    }
  }

  /** Every writer call gets between 1 and ChunkSize items. */
  lemma {:induction false} ChunksBounded<T>(s: seq<T>)
    ensures forall i :: 0 <= i < |Chunks(s)| ==> 1 <= |Chunks(s)[i]| <= ChunkSize
    decreases |s|
  {
    if ChunkSize < |s| {
      ChunksBounded(s[ChunkSize..]);
      assert Chunks(s)[1..] == Chunks(s[ChunkSize..]);
    }
  }

  /** N items make ceil(N / ChunkSize) writer calls. */
  lemma {:induction false} ChunksCount<T>(s: seq<T>)
    ensures |Chunks(s)| == (|s| + ChunkSize - 1) / ChunkSize
    decreases |s|
  {
    if ChunkSize < |s| {
      ChunksCount(s[ChunkSize..]);
    }
  }

  /** A new chunk after a run of full chunks is one more writer call. */
  lemma {:induction false} ChunksAppend<T>(a: seq<T>, b: seq<T>)
    requires |a| % ChunkSize == 0 && 1 <= |b| <= ChunkSize
    ensures Chunks(a + b) == Chunks(a) + [b]
    decreases |a|
  {
    if |a| == 0 {
      assert a + b == b;
    } else {
      var ab := a + b;
      assert ab[..ChunkSize] == a[..ChunkSize];
      assert ab[ChunkSize..] == a[ChunkSize..] + b;
      ChunksAppend(a[ChunkSize..], b);
    }
  }

  /** One item more than the chunk size: one full chunk and one single-item chunk. */
  lemma OneOverChunkSize<T>(s: seq<T>)
    requires |s| == ChunkSize + 1
    ensures Chunks(s) == [s[..ChunkSize], [s[ChunkSize]]]
  {
    assert s[ChunkSize..] == [s[ChunkSize]];
  }
}
