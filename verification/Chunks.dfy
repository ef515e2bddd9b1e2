/** worker/transcriber.py: planning chunks and the share of the job each stands for. */
module Chunks {
  /** (start_sec, length_sec) */
  datatype Chunk = Chunk(start: real, length: real)

  function Min(a: real, b: real): real {
    if b < a then b else a
  }

  /** Where chunk i starts, by repeated addition as the planning loop does it. */
  function StartAt(i: nat, chunkSec: real): real {
    if i == 0 then 0.0 else StartAt(i - 1, chunkSec) + chunkSec
  }

  lemma {:induction false} StartIsMultiple(i: nat, chunkSec: real)
    ensures StartAt(i, chunkSec) == i as real * chunkSec
  {
    if i > 0 {
      StartIsMultiple(i - 1, chunkSec);
      assert i as real * chunkSec == (i - 1) as real * chunkSec + chunkSec;
    }
  }

  /** A measure for the planning loop: whole chunks still to come. */
  function Ahead(start: real, duration: real, chunkSec: real): nat
    requires chunkSec > 0.0
  {
    var left := ((duration - start) / chunkSec).Floor;
    if start < duration && left >= 0 then left + 1 else 0
  }

  lemma OneLess(x: real, c: real)
    requires c > 0.0
    ensures (x - c) / c == x / c - 1.0
  {
    var q, r := x / c, (x - c) / c;
    assert q * c == x && r * c == x - c;
    var u := q - 1.0 - r;
    assert u * c == 0.0;
    if u > 0.0 { Scale(0.0, u, c); }
    if u < 0.0 { Scale(u, 0.0, c); }
  }

  lemma Scale(a: real, b: real, c: real)
    requires a < b && c > 0.0
    ensures a * c < b * c
  {
  }

  lemma ScaleLe(a: real, b: real, c: real)
    requires a <= b && c >= 0.0
    ensures a * c <= b * c
  {
  }

  lemma AheadShrinks(start: real, duration: real, chunkSec: real)
    requires chunkSec > 0.0 && start < duration
    ensures Ahead(start + chunkSec, duration, chunkSec) < Ahead(start, duration, chunkSec)
  {
    OneLess(duration - start, chunkSec);
    assert duration - (start + chunkSec) == duration - start - chunkSec;
    assert (duration - start) / chunkSec > 0.0;
  }

  /** How often the loop runs from a start. */
  function Rounds(start: real, duration: real, chunkSec: real): nat
    requires chunkSec > 0.0
    decreases Ahead(start, duration, chunkSec)
  {
    if start >= duration then 0
    else
      AheadShrinks(start, duration, chunkSec);
      1 + Rounds(start + chunkSec, duration, chunkSec)
  }

  function Count(duration: real, chunkSec: real): nat
    requires duration > 0.0 ==> chunkSec > 0.0
  {
    if duration <= 0.0 then 0 else Rounds(0.0, duration, chunkSec)
  }

  /** The loop guard is still true after k rounds. */
  predicate StillLooping(k: nat, duration: real, chunkSec: real) {
    StartAt(k, chunkSec) < duration
  }

  lemma {:induction false} RoundsFrom(start: real, k: nat, duration: real, chunkSec: real)
    requires chunkSec > 0.0
    ensures k < Rounds(start, duration, chunkSec) <==> start + StartAt(k, chunkSec) < duration
    decreases Ahead(start, duration, chunkSec), k
  {
    if start >= duration {
      StartNonNegative(k, chunkSec);
    } else if k > 0 {
      AheadShrinks(start, duration, chunkSec);
      RoundsFrom(start + chunkSec, k - 1, duration, chunkSec);
    }
  }

  lemma {:induction false} StartNonNegative(k: nat, chunkSec: real)
    requires chunkSec >= 0.0
    ensures StartAt(k, chunkSec) >= 0.0
  {
    if k > 0 { StartNonNegative(k - 1, chunkSec); }
  }

  lemma CountReached(k: nat, duration: real, chunkSec: real)
    requires duration > 0.0 && chunkSec > 0.0
    ensures StillLooping(k, duration, chunkSec) <==> k < Count(duration, chunkSec)
  {
    RoundsFrom(0.0, k, duration, chunkSec);
  }

  /** The number of chunks is the ceiling of duration / chunkSec. */
  lemma CountIsCeiling(duration: real, chunkSec: real)
    requires duration > 0.0 && chunkSec > 0.0
    ensures var n := Count(duration, chunkSec);
            n >= 1 && (n - 1) as real * chunkSec < duration <= n as real * chunkSec
  {
    var n := Count(duration, chunkSec);
    CountReached(0, duration, chunkSec);
    CountReached(n, duration, chunkSec);
    CountReached(n - 1, duration, chunkSec);
    StartIsMultiple(n, chunkSec);
    StartIsMultiple(n - 1, chunkSec);
  }

  function ChunkAt(i: nat, duration: real, chunkSec: real): Chunk {
    Chunk(StartAt(i, chunkSec), Min(chunkSec, duration - StartAt(i, chunkSec)))
  }

  function Plan(duration: real, chunkSec: real): seq<Chunk>
    requires duration > 0.0 ==> chunkSec > 0.0
  {
    seq(Count(duration, chunkSec), (i: nat) => ChunkAt(i, duration, chunkSec))
  }

  lemma {:induction false} NeverPositive(k: nat, chunkSec: real)
    requires chunkSec <= 0.0
    ensures StartAt(k, chunkSec) <= 0.0
  {
    if k > 0 { NeverPositive(k - 1, chunkSec); }
  }

  /** The planning loop ends exactly for an empty file or a positive chunk size. */
  lemma PlanEndsIff(duration: real, chunkSec: real)
    ensures (exists k: nat :: !StillLooping(k, duration, chunkSec)) <==> duration <= 0.0 || chunkSec > 0.0
  {
    if duration <= 0.0 {
      assert !StillLooping(0, duration, chunkSec);
    } else if chunkSec > 0.0 {
      CountReached(Count(duration, chunkSec), duration, chunkSec);
    } else {
      forall k: nat ensures StillLooping(k, duration, chunkSec) {
        NeverPositive(k, chunkSec);
      }
    }
  }

  method PlanChunks(duration: real, chunkSec: real) returns (chunks: seq<Chunk>)
    requires duration > 0.0 ==> chunkSec > 0.0
    ensures chunks == Plan(duration, chunkSec)
  {
    chunks := [];
    var start := 0.0;
    while start < duration
      invariant start == StartAt(|chunks|, chunkSec)
      invariant duration > 0.0 ==> |chunks| <= Count(duration, chunkSec)
      invariant duration <= 0.0 ==> |chunks| == 0
      invariant forall i :: 0 <= i < |chunks| ==> chunks[i] == ChunkAt(i, duration, chunkSec)
      decreases if duration > 0.0 then Count(duration, chunkSec) - |chunks| else 0
    {
      CountReached(|chunks|, duration, chunkSec);
      chunks := chunks + [Chunk(start, Min(chunkSec, duration - start))];
      start := start + chunkSec;
    }
    if duration > 0.0 { CountReached(|chunks|, duration, chunkSec); }
  }

  function TotalLength(chunks: seq<Chunk>): real {
    if chunks == [] then 0.0 else TotalLength(chunks[..|chunks| - 1]) + chunks[|chunks| - 1].length
  }

  /** Each chunk is non-empty, at most chunkSec long, and meets its neighbour or the end of the file. */
  lemma ChunkFits(i: nat, duration: real, chunkSec: real)
    requires duration > 0.0 && chunkSec > 0.0 && i < Count(duration, chunkSec)
    ensures var c, n := ChunkAt(i, duration, chunkSec), Count(duration, chunkSec);
            && 0.0 <= c.start && 0.0 < c.length <= chunkSec && c.start + c.length <= duration
            && (i < n - 1 ==> c.length == chunkSec && c.start + c.length == ChunkAt(i + 1, duration, chunkSec).start)
            && (i == n - 1 ==> c.start + c.length == duration)
  {
    StartNonNegative(i, chunkSec);
    CountReached(i, duration, chunkSec);
    CountReached(i + 1, duration, chunkSec);
  }

  /** The lengths of the first k chunks add up to where the last of them ends. */
  lemma {:induction false} PrefixLength(k: nat, duration: real, chunkSec: real)
    requires duration > 0.0 && chunkSec > 0.0 && 1 <= k <= Count(duration, chunkSec)
    ensures TotalLength(Plan(duration, chunkSec)[..k])
         == ChunkAt(k - 1, duration, chunkSec).start + ChunkAt(k - 1, duration, chunkSec).length
  {
    var p := Plan(duration, chunkSec);
    assert p[..k][..k - 1] == p[..k - 1] && p[..k][k - 1] == ChunkAt(k - 1, duration, chunkSec);
    if k > 1 {
      PrefixLength(k - 1, duration, chunkSec);
      ChunkFits(k - 2, duration, chunkSec);
    }
  }

  /** No gap, no overlap, no empty or overlong chunk, from 0 to the end of the file. */
  ghost predicate Partitions(p: seq<Chunk>, duration: real, chunkSec: real) {
    && p != [] && p[0].start == 0.0
    && (forall i :: 0 <= i < |p| ==> 0.0 < p[i].length <= chunkSec)
    && (forall i :: 0 <= i < |p| - 1 ==> p[i].start + p[i].length == p[i + 1].start)
    && p[|p| - 1].start + p[|p| - 1].length == duration
    && TotalLength(p) == duration
  }

  lemma PlanPartitions(duration: real, chunkSec: real)
    requires duration > 0.0 && chunkSec > 0.0
    ensures Partitions(Plan(duration, chunkSec), duration, chunkSec)
    ensures |Plan(duration, chunkSec)| == Count(duration, chunkSec)
    ensures forall i :: 0 <= i < Count(duration, chunkSec) ==> Plan(duration, chunkSec)[i].start == StartAt(i, chunkSec)
  {
    var p := Plan(duration, chunkSec);
    CountReached(0, duration, chunkSec);
    assert p[0] == ChunkAt(0, duration, chunkSec);
    forall i | 0 <= i < |p|
      ensures p[i].start == StartAt(i, chunkSec)
      ensures 0.0 < p[i].length <= chunkSec
      ensures i < |p| - 1 ==> p[i].start + p[i].length == p[i + 1].start
    {
      ChunkFits(i, duration, chunkSec);
    }
    ChunkFits(|p| - 1, duration, chunkSec);
    PrefixLength(|p|, duration, chunkSec);
    assert p[..|p|] == p;
  }

  /* ---------- progress ---------- */

  /** `_scaled_progress`: chunk i of n, a fraction of it done. */
  function Scaled(index: nat, fraction: real, total: nat): real
    requires total > 0
  {
    (index as real + fraction) / total as real
  }

  /** Seconds of audio processed when a fraction of chunk i is done. */
  function Processed(i: nat, fraction: real, duration: real, chunkSec: real): real {
    ChunkAt(i, duration, chunkSec).start + fraction * ChunkAt(i, duration, chunkSec).length
  }

  lemma InnerProcessed(i: nat, f: real, d: real, c: real)
    requires d > 0.0 && c > 0.0 && i + 1 < Count(d, c)
    ensures Processed(i, f, d, c) == i as real * c + f * c
  {
    ChunkFits(i, d, c);
    StartIsMultiple(i, c);
  }

  lemma LastProcessed(i: nat, f: real, d: real, c: real)
    requires d > 0.0 && c > 0.0 && i + 1 == Count(d, c)
    ensures Processed(i, f, d, c) == i as real * c + f * (d - i as real * c)
  {
    ChunkFits(i, d, c);
    StartIsMultiple(i, c);
  }

  /** Processed time lies above the reported share of the file, by less than one chunk's share. */
  predicate Bounded(x: real, f: real, d: real, processed: real, n: real) {
    (x + f) * d <= processed * n < (x + f) * d + d
  }

  lemma InnerBounds(i: nat, f: real, d: real, c: real)
    requires d > 0.0 && c > 0.0 && i + 1 < Count(d, c) && 0.0 <= f <= 1.0
    ensures Bounded(i as real, f, d, Processed(i, f, d, c), Count(d, c) as real)
  {
    CountIsCeiling(d, c);
    InnerProcessed(i, f, d, c);
    InnerChunk(i as real, f, Count(d, c) as real, d, c);
  }

  lemma LastBounds(i: nat, f: real, d: real, c: real)
    requires d > 0.0 && c > 0.0 && i + 1 == Count(d, c) && 0.0 <= f <= 1.0
    ensures Bounded(i as real, f, d, Processed(i, f, d, c), Count(d, c) as real)
  {
    CountIsCeiling(d, c);
    LastProcessed(i, f, d, c);
    assert i as real == Count(d, c) as real - 1.0;
    LastChunk(f, Count(d, c) as real, d, c);
  }

  /** The two bounds with the divisions multiplied out. */
  lemma ProcessedBounds(i: nat, f: real, d: real, c: real)
    requires d > 0.0 && c > 0.0 && i < Count(d, c) && 0.0 <= f <= 1.0
    ensures Bounded(i as real, f, d, Processed(i, f, d, c), Count(d, c) as real)
  {
    if i + 1 < Count(d, c) { InnerBounds(i, f, d, c); } else { LastBounds(i, f, d, c); }
  }

  /** In a full chunk the processed time is (i + f) * c, and (n - 1) * c < d <= n * c. */
  lemma InnerChunk(i: real, f: real, n: real, d: real, c: real)
    requires c > 0.0 && 0.0 <= i + f <= n - 1.0 && (n - 1.0) * c < d <= n * c
    ensures (i + f) * d <= (i * c + f * c) * n < (i + f) * d + d
  {
    var x, m := i + f, (n - 1.0) * c;
    var over := x * (m + c - d);
    assert n * c == m + c;
    assert 0.0 <= over <= x * c by { ScaleLe(m + c - d, c, x); ScaleLe(0.0, m + c - d, x); }
    assert x * c <= m by { ScaleLe(x, n - 1.0, c); }
    assert (i * c + f * c) * n == x * (n * c) by { assert i * c + f * c == x * c; assert (x * c) * n == x * (n * c); }
    assert x * (m + c) == x * d + over;
  }

  /** The last chunk is d - (n - 1) * c long. */
  lemma LastChunk(f: real, n: real, d: real, c: real)
    requires n >= 1.0 && c > 0.0 && d > 0.0 && 0.0 <= f <= 1.0 && (n - 1.0) * c < d <= n * c
    ensures var p := (n - 1.0) * c + f * (d - (n - 1.0) * c);
            (n - 1.0 + f) * d <= p * n < (n - 1.0 + f) * d + d
  {
    var m := (n - 1.0) * c;
    var p := m + f * (d - m);
    var g := m * n - (n - 1.0) * d;
    assert m * n == (n - 1.0) * (n * c);
    ScaleLe(d, n * c, n - 1.0);
    assert 0.0 <= g;
    assert p * n - (n - 1.0 + f) * d == (1.0 - f) * g by {
      assert p * n == m * n + f * (d * n) - f * (m * n);
      assert (1.0 - f) * g == g - f * g;
      assert f * g == f * (m * n) - f * ((n - 1.0) * d);
      assert f * ((n - 1.0) * d) == f * (n * d) - f * d;
    }
    Scale(m, d, n);
    assert g < d * n - (n - 1.0) * d == d;
    ScaleLe(1.0 - f, 1.0, g);
  }

  /**
    * Reported progress never overstates the share of the audio processed, falls short of
    * it by less than one chunk's share, and stays in [0, 1].
    */
  lemma ProgressHonest(i: nat, fraction: real, duration: real, chunkSec: real)
    requires duration > 0.0 && chunkSec > 0.0 && i < Count(duration, chunkSec) && 0.0 <= fraction <= 1.0
    ensures var n := Count(duration, chunkSec);
            var share := Processed(i, fraction, duration, chunkSec) / duration;
            && 0.0 <= Scaled(i, fraction, n) <= share <= 1.0
            && share < Scaled(i, fraction, n) + 1.0 / n as real
  {
    var n := Count(duration, chunkSec);
    ProcessedBounds(i, fraction, duration, chunkSec);
    ProcessedWithin(i, fraction, duration, chunkSec);
    CountReached(0, duration, chunkSec);
    var x, r, p := i as real + fraction, n as real, Processed(i, fraction, duration, chunkSec);
    SharesCompare(x, r, p, duration);
    assert Scaled(i, fraction, n) == x / r;
  }

  lemma ProcessedWithin(i: nat, fraction: real, duration: real, chunkSec: real)
    requires duration > 0.0 && chunkSec > 0.0 && i < Count(duration, chunkSec) && 0.0 <= fraction <= 1.0
    ensures 0.0 <= Processed(i, fraction, duration, chunkSec) <= duration
  {
    var c := ChunkAt(i, duration, chunkSec);
    ChunkFits(i, duration, chunkSec);
    PartWithin(c.start, c.length, fraction, duration);
  }

  lemma PartWithin(start: real, length: real, f: real, d: real)
    requires 0.0 <= start && 0.0 <= length && start + length <= d && 0.0 <= f <= 1.0
    ensures 0.0 <= start + f * length <= d
  {
    ScaleLe(f, 1.0, length);
    ScaleLe(0.0, f, length);
  }

  lemma SharesCompare(x: real, n: real, p: real, d: real)
    requires n > 0.0 && d > 0.0 && x >= 0.0 && p <= d && x * d <= p * n < x * d + d
    ensures 0.0 <= x / n <= p / d <= 1.0 && p / d < x / n + 1.0 / n
  {
    CrossLe(x, n, p, d);
    CrossLe(p, d, 1.0, 1.0);
    CrossLe(0.0, 1.0, x, n);
    assert (x + 1.0) * d == x * d + d;
    CrossLt(p, d, x + 1.0, n);
    assert (x + 1.0) / n == x / n + 1.0 / n;
  }

  lemma CrossLe(a: real, b: real, c: real, d: real)
    requires b > 0.0 && d > 0.0 && a * d <= c * b
    ensures a / b <= c / d
  {
    var x, y := a / b, c / d;
    assert a == x * b && c == y * d;
    assert (x * b) * d == x * (b * d) && (y * d) * b == y * (b * d);
    if x > y { Scale(y, x, b * d); }
  }

  lemma CrossLt(a: real, b: real, c: real, d: real)
    requires b > 0.0 && d > 0.0 && a * d < c * b
    ensures a / b < c / d
  {
    var x, y := a / b, c / d;
    assert a == x * b && c == y * d;
    assert (x * b) * d == x * (b * d) && (y * d) * b == y * (b * d);
    if x >= y { ScaleLe(y, x, b * d); }
  }

  /** Progress never goes back, neither within a chunk nor across a boundary. */
  lemma ProgressMonotone(i: nat, f: real, k: nat, g: real, total: nat)
    requires total > 0 && 0.0 <= f <= 1.0 && 0.0 <= g <= 1.0 && (i < k || (i == k && f <= g))
    ensures Scaled(i, f, total) <= Scaled(k, g, total)
  {
    CrossLe(i as real + f, total as real, k as real + g, total as real) by {
      ScaleLe(i as real + f, k as real + g, total as real);
    }
  }
}
