/** The block producers of the speaker: the chunker `raw_gen` and the repeat expander `repeat_gen`. */
module Blocks {
  import opened Common

  /** `n` zero bytes, the padding `b'\x00' * n`. */
  function Zeros(n: nat): (z: seq<Byte>)
    ensures |z| == n
    ensures forall i :: 0 <= i < n ==> z[i] == 0
  {
    seq(n, _ => 0)
  }

  /** All blocks of `blocks` joined into one byte string. */
  function Flatten(blocks: seq<Block>): seq<Byte> {
    if blocks == [] then [] else blocks[0] + Flatten(blocks[1..])
  }

  /**
   * The windows `raw_gen` yields for `data` with a block length of `n` bytes:
   * consecutive slices of `n` bytes from offset 0, the last one zero-padded.
   * Each block has length `n`, and the blocks hold just enough room for the
   * data: the block count is the ceiling of `|data| / n`.
   */
  function Chunks(data: seq<Byte>, n: nat): (r: seq<Block>)
    requires n > 0
    ensures forall k :: 0 <= k < |r| ==> |r[k]| == n
    ensures data == [] <==> r == []
    decreases |data|
  {
    if data == [] then []
    else if |data| <= n then [data + Zeros(n - |data|)]
    else [data[..n]] + Chunks(data[n..], n)
  }

  /** The block count is the ceiling of `|data| / n`: the blocks cover the data with less than one block to spare. */
  lemma {:induction false} ChunksCount(data: seq<Byte>, n: nat)
    requires n > 0
    ensures |data| <= |Chunks(data, n)| * n < |data| + n
    decreases |data|
  {
    if |data| > n {
      ChunksCount(data[n..], n);
      assert |Chunks(data, n)| == |Chunks(data[n..], n)| + 1;
    }
  }

  /** The number of zero bytes added to the final block. */
  function Padding(data: seq<Byte>, n: nat): (p: nat)
    requires n > 0
    ensures p < n
    ensures |data| + p == |Chunks(data, n)| * n
  {
    ChunksCount(data, n);
    |Chunks(data, n)| * n - |data|
  }

  /** The joined blocks are the data followed by exactly the padding zeros. */
  lemma {:induction false} ChunksConcat(data: seq<Byte>, n: nat)
    requires n > 0
    ensures Flatten(Chunks(data, n)) == data + Zeros(Padding(data, n))
    decreases |data|
  {
    var r := Chunks(data, n);
    if data == [] {
    } else if |data| <= n {
      assert |r| == 1;
      assert Flatten(r) == r[0] + Flatten([]);
    } else {
      var rest := Chunks(data[n..], n);
      ChunksConcat(data[n..], n);
      assert r[1..] == rest;
      PaddingStep(data, n);
      calc {
        Flatten(r);
        data[..n] + Flatten(rest);
        data[..n] + (data[n..] + Zeros(Padding(data[n..], n)));
        { assert data[..n] + data[n..] == data; }
        data + Zeros(Padding(data, n));
      }
    }
  }

  lemma PaddingStep(data: seq<Byte>, n: nat)
    requires n > 0 && |data| > n
    ensures Padding(data, n) == Padding(data[n..], n)
  {
  }

  /** The padding is the fewest zero bytes that bring the length to a multiple of `n`. */
  lemma PaddingIsFewest(data: seq<Byte>, n: nat, m: nat)
    requires n > 0
    requires |data| <= m * n
    ensures Padding(data, n) <= m * n - |data|
  {
    var c := |Chunks(data, n)|;
    ChunksCount(data, n);
    assert c * n < (m + 1) * n;
    MulLess(c, m + 1, n);
    MulMono(c, m, n);
  }

  lemma MulLess(a: nat, b: nat, n: nat)
    requires n > 0 && a * n < b * n
    ensures a < b
  {
    if a >= b { MulMono(b, a, n); }
  }

  lemma MulMono(a: nat, b: nat, n: nat)
    requires a <= b
    ensures a * n <= b * n
  {
  }

  /**
   * `raw_gen(data, dt, bs)`: walks the offsets `range(0, len(data), bs * w)`
   * (with `w` the sample width of `dt`), slices one window at each offset and
   * pads a short window with zeros before yielding it.
   */
  method RawGen(data: seq<Byte>, bs: nat, w: nat) returns (blocks: seq<Block>)
    requires bs > 0 && w > 0
    ensures blocks == Chunks(data, bs * w)
  {
    var n := bs * w;
    blocks := [];
    var i := 0;
    while i < |data|
      invariant 0 <= i
      invariant i < |data| ==> blocks + Chunks(data[i..], n) == Chunks(data, n)
      invariant i >= |data| ==> blocks == Chunks(data, n)
      decreases |data| - i
    {
      var end := if i + n < |data| then i + n else |data|;
      var b := data[i..end];
      if |b| < n {
        b := b + Zeros(n - |b|);
      }
      ghost var rest := data[i..];
      if |rest| <= n {
        assert data[i..end] == rest;
        assert |rest| == n ==> rest + Zeros(0) == rest;
        assert Chunks(rest, n) == [b];
      } else {
        assert rest[..n] == b;
        assert rest[n..] == data[i + n..];
        assert Chunks(rest, n) == [b] + Chunks(data[i + n..], n);
      }
      blocks := blocks + [b];
      i := i + n;
    }
  }

  /**
   * `tee`-based replay of `blocks`: the input joined with itself `n` times.
   * Nothing but input blocks comes out, and nothing at all exactly when there
   * is no copy or no input.
   */
  function Cycle(blocks: seq<Block>, n: nat): (r: seq<Block>)
    ensures r == [] <==> n == 0 || blocks == []
    ensures forall i :: 0 <= i < |r| ==> r[i] in blocks
  {
    if n == 0 then [] else blocks + Cycle(blocks, n - 1)
  }

  /**
   * `repeat_gen(gen, repeat)`: a pass-through when `repeat == 1`, otherwise
   * the blocks of each of the `repeat` copies made by `itertools.tee`, in
   * order; `tee` rejects a negative count and yields no copy for zero.
   */
  function RepeatGen(gen: seq<Block>, repeat: int): (r: Result<seq<Block>>)
    ensures r.Err? <==> repeat < 0
    ensures r.Err? ==> r.error == NegativeRepeat
  {
    if repeat == 1 then Ok(gen)
    else if repeat < 0 then Err(NegativeRepeat)
    else Ok(Cycle(gen, repeat))
  }

  lemma {:induction false} CycleLength(blocks: seq<Block>, n: nat)
    ensures |Cycle(blocks, n)| == n * |blocks|
  {
    if n > 0 {
      CycleLength(blocks, n - 1);
    }
  }

  /** The `j`-th repetition of the output is the input, block for block. */
  lemma {:induction false} CycleRepetition(blocks: seq<Block>, n: nat, j: nat)
    requires j < n
    ensures |Cycle(blocks, n)| == n * |blocks|
    ensures Cycle(blocks, n)[j * |blocks| .. (j + 1) * |blocks|] == blocks
  {
    CycleLength(blocks, n);
    var m := |blocks|;
    var rest := Cycle(blocks, n - 1);
    if j > 0 {
      CycleRepetition(blocks, n - 1, j - 1);
      var lo := (j - 1) * m;
      MulSucc(j - 1, m);
      MulSucc(j, m);
      CycleLength(blocks, n - 1);
      MulMono(j, n - 1, m);
      SliceAfter(blocks, rest, lo, lo + m);
    } else {
      assert (blocks + rest)[0..m] == blocks;
    }
  }

  lemma MulSucc(k: nat, m: nat)
    ensures (k + 1) * m == k * m + m
  {
  }

  lemma SliceAfter<T>(a: seq<T>, b: seq<T>, lo: nat, hi: nat)
    requires lo <= hi <= |b|
    ensures (a + b)[|a| + lo .. |a| + hi] == b[lo..hi]
  {
  }

  /** The pass-through for one repetition yields what a single `tee` copy would. */
  lemma RepeatOnceIsCycle(gen: seq<Block>)
    ensures RepeatGen(gen, 1) == Ok(Cycle(gen, 1))
  {
    assert Cycle(gen, 0) == [];
    assert gen + [] == gen;
  }

  /**
   * For a count of at least zero the output has `repeat * |gen|` blocks, and
   * its `j`-th run of `|gen|` blocks is `gen` itself.
   */
  lemma RepeatGenRuns(gen: seq<Block>, repeat: nat, j: nat)
    requires j < repeat
    ensures RepeatGen(gen, repeat).Ok?
    ensures |RepeatGen(gen, repeat).value| == repeat * |gen|
    ensures RepeatGen(gen, repeat).value[j * |gen| .. (j + 1) * |gen|] == gen
  {
    RepeatOnceIsCycle(gen);
    CycleRepetition(gen, repeat, j);
  }

  /** Zero repetitions yield nothing; the empty input yields nothing however often it is repeated. */
  lemma RepeatGenEmpty(gen: seq<Block>, repeat: nat)
    ensures repeat == 0 || gen == [] ==> RepeatGen(gen, repeat) == Ok([])
  {
    if repeat != 1 { CycleLength(gen, repeat); }
  }
}
