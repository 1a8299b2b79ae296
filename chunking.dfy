/**
 * How the two MP3 decoders walk the samples: `for i in range(0, n, chunk_size)`
 * over chunks `samples[i:i+chunk_size]`, stopping at the first chunk shorter
 * than `chunk_size // 2`. Only the trailing chunk can be short.
 */
module Chunking {

  /** `len(range(0, n, chunk_size))`: the number of chunks, the last one possibly partial. */
  function ChunkCount(sampleCount: nat, chunkSize: nat): nat
    requires chunkSize > 0
  {
    sampleCount / chunkSize + (if sampleCount % chunkSize > 0 then 1 else 0)
  }

  /** `len(samples[i:i+chunk_size])` for the chunk starting at sample `start`. */
  function ChunkLength(sampleCount: nat, chunkSize: nat, start: nat): nat
    requires start < sampleCount
  {
    if sampleCount - start < chunkSize then sampleCount - start else chunkSize
  }

  /**
   * The number of chunks the loop decodes: all of them, unless the trailing
   * partial chunk is shorter than half a chunk, which ends the loop.
   */
  function Processed(sampleCount: nat, chunkSize: nat): nat
    requires chunkSize > 0
  {
    var rest := sampleCount % chunkSize;
    if rest > 0 && rest < chunkSize / 2 then sampleCount / chunkSize else ChunkCount(sampleCount, chunkSize)
  }

  /** The first sample of chunk `k`: the loop variable `i` after `k` chunks. */
  function Offset(k: nat, chunkSize: nat): nat
  {
    if k == 0 then 0 else Offset(k - 1, chunkSize) + chunkSize
  }

  /** `sim_time` after `k` chunks: `chunk_duration` added once per chunk. */
  function Elapsed(k: nat, chunkDuration: real): real
  {
    if k == 0 then 0.0 else Elapsed(k - 1, chunkDuration) + chunkDuration
  }

  /** `sim_time += chunk_duration`: the clock after one more chunk. */
  method AdvanceClock(simTime: real, chunkDuration: real, k: nat) returns (t: real)
    requires simTime == Elapsed(k, chunkDuration)
    ensures t == Elapsed(k + 1, chunkDuration)
  {
    t := simTime + chunkDuration;
  }

  lemma {:induction false} OffsetIsProduct(k: nat, chunkSize: nat)
    ensures Offset(k, chunkSize) == k * chunkSize
  {
    if k > 0 {
      OffsetIsProduct(k - 1, chunkSize);
    }
  }

  /** The clock after `k` chunks is `k` chunk durations. */
  lemma {:induction false} ElapsedIsProduct(k: nat, chunkDuration: real)
    ensures Elapsed(k, chunkDuration) == k as real * chunkDuration
  {
    if k > 0 {
      ElapsedIsProduct(k - 1, chunkDuration);
    }
  }

  /** Multiplying by a positive chunk size preserves strict order, both ways. */
  lemma MulStrict(a: nat, b: nat, c: nat)
    requires c > 0
    ensures a < b <==> a * c < b * c
  {
    if a < b {
      assert b * c == a * c + (b - a) * c;
    } else {
      assert a * c == b * c + (a - b) * c;
    }
  }

  /**
   * The chunk at position `k` ends the loop exactly when `k` is the number of
   * processed chunks; every earlier chunk is decoded.
   */
  lemma ChunkDecision(sampleCount: nat, chunkSize: nat, k: nat)
    requires chunkSize > 0 && Offset(k, chunkSize) < sampleCount && k <= Processed(sampleCount, chunkSize)
    ensures ChunkLength(sampleCount, chunkSize, Offset(k, chunkSize)) < chunkSize / 2 <==>
              k == Processed(sampleCount, chunkSize)
    ensures k < ChunkCount(sampleCount, chunkSize)
  {
    OffsetIsProduct(k, chunkSize);
    var q := sampleCount / chunkSize;
    var r := sampleCount % chunkSize;
    DivMod(sampleCount, chunkSize);
    Distrib(q, 1, chunkSize);
    MulStrict(k, q + 1, chunkSize);
    if k < q {
      Distrib(k + 1, q - k - 1, chunkSize);
      Distrib(k, 1, chunkSize);
      assert sampleCount - Offset(k, chunkSize) >= chunkSize;
      assert Processed(sampleCount, chunkSize) >= q;
    } else {
      assert Offset(k, chunkSize) == q * chunkSize;
      assert ChunkLength(sampleCount, chunkSize, Offset(k, chunkSize)) == r;
    }
  }

  /** Euclidean division of a sample count into whole chunks and a remainder. */
  lemma DivMod(n: nat, c: nat)
    requires c > 0
    ensures n == (n / c) * c + n % c && n % c < c
  {
  }

  lemma Distrib(a: int, b: int, c: int)
    ensures (a + b) * c == a * c + b * c
  {
  }

  /** Running past the last sample means every chunk was decoded. */
  lemma ChunksExhausted(sampleCount: nat, chunkSize: nat, k: nat)
    requires chunkSize > 0 && Offset(k, chunkSize) >= sampleCount && k <= Processed(sampleCount, chunkSize)
    ensures k == Processed(sampleCount, chunkSize) == ChunkCount(sampleCount, chunkSize)
  {
    OffsetIsProduct(k, chunkSize);
    var q := sampleCount / chunkSize;
    var r := sampleCount % chunkSize;
    assert sampleCount == q * chunkSize + r;
    MulStrict(k, q, chunkSize);
    MulStrict(q, k, chunkSize);
  }
}
