/** worker/transcriber.py: the chunked transcription loop and the timeline it produces. */
module Transcriber {
  import opened Domain
  import opened Rounding
  import opened Chunks
  import opened Progress

  datatype Raw = Raw(start: real, end: real, text: string)

  /** What the recogniser returns for one WAV. */
  datatype Hearing = Hearing(raw: seq<Raw>, language: string)

  /* ---------- shaping ---------- */

  function OffsetSegments(raw: seq<Raw>, offset: real): (r: seq<Raw>)
    ensures |r| == |raw|
  {
    seq(|raw|, (i: nat) requires i < |raw| => Raw(raw[i].start + offset, raw[i].end + offset, raw[i].text))
  }

  /** merge_chunks: the simple form, over (chunk start, raw segments). */
  function MergeChunks(results: seq<(real, seq<Raw>)>): seq<Raw> {
    if results == [] then []
    else MergeChunks(results[..|results| - 1]) + OffsetSegments(results[|results| - 1].1, results[|results| - 1].0)
  }

  /** str.isspace for one character. */
  predicate IsSpace(c: char) {
    var n := c as int;
    || 9 <= n <= 13 || 28 <= n <= 32 || n == 0x85 || n == 0xA0 || n == 0x1680 || 0x2000 <= n <= 0x200A
    || n == 0x2028 || n == 0x2029 || n == 0x202F || n == 0x205F || n == 0x3000
  }

  predicate Blank(s: string) {
    forall i :: 0 <= i < |s| ==> IsSpace(s[i])
  }

  function Lstrip(s: string): string {
    if s != [] && IsSpace(s[0]) then Lstrip(s[1..]) else s
  }

  function Rstrip(s: string): string {
    if s != [] && IsSpace(s[|s| - 1]) then Rstrip(s[..|s| - 1]) else s
  }

  function Strip(s: string): string {
    Rstrip(Lstrip(s))
  }

  lemma {:induction false} LstripCuts(s: string) returns (before: string)
    ensures s == before + Lstrip(s) && Blank(before)
    ensures Lstrip(s) != [] ==> !IsSpace(Lstrip(s)[0])
  {
    if s != [] && IsSpace(s[0]) {
      before := LstripCuts(s[1..]);
      before := [s[0]] + before;
    } else {
      before := [];
    }
  }

  lemma {:induction false} RstripCuts(s: string) returns (after: string)
    ensures s == Rstrip(s) + after && Blank(after)
    ensures Rstrip(s) != [] ==> !IsSpace(Rstrip(s)[|Rstrip(s)| - 1])
  {
    if s != [] && IsSpace(s[|s| - 1]) {
      after := RstripCuts(s[..|s| - 1]);
      after := after + [s[|s| - 1]];
    } else {
      after := [];
    }
  }

  /** strip removes whitespace at both ends, all of it, and nothing else. */
  lemma StripCuts(s: string) returns (before: string, after: string)
    ensures s == before + Strip(s) + after && Blank(before) && Blank(after)
    ensures Strip(s) != [] ==> !IsSpace(Strip(s)[0]) && !IsSpace(Strip(s)[|Strip(s)| - 1])
  {
    before := LstripCuts(s);
    after := RstripCuts(Lstrip(s));
    if Strip(s) != [] { assert Strip(s)[0] == Lstrip(s)[0]; }
  }

  function ShapeSegments(raw: seq<Raw>): (r: seq<Segment>)
    ensures |r| == |raw|
  {
    seq(|raw|, (i: nat) requires i < |raw| =>
      Segment(i, Round2(raw[i].start), Round2(raw[i].end), Strip(raw[i].text)))
  }

  function Join(segments: seq<Segment>): string {
    if segments == [] then ""
    else if |segments| == 1 then segments[0].text
    else Join(segments[..|segments| - 1]) + " " + segments[|segments| - 1].text
  }

  /** The full text of two stretches is their texts with one space between. */
  lemma {:induction false} JoinConcat(a: seq<Segment>, b: seq<Segment>)
    requires a != [] && b != []
    ensures Join(a + b) == Join(a) + " " + Join(b)
    decreases |b|
  {
    var c := b[..|b| - 1];
    assert (a + b)[..|a + b| - 1] == a + c;
    if c == [] {
      assert a + c == a;
    } else {
      JoinConcat(a, c);
    }
  }

  function BuildTranscript(segments: seq<Segment>, language: string, duration: real): Transcript {
    Transcript(Join(segments), language, Round2(duration), segments)
  }

  /* ---------- the loops ---------- */

  function ChunksFor(duration: real, threshold: int, chunkSec: int): seq<Chunk>
    requires duration > threshold as real && duration > 0.0 ==> chunkSec > 0
  {
    if duration > threshold as real then Plan(duration, chunkSec as real) else [Chunk(0.0, duration)]
  }

  /** Wherever a single chunk is used, the unsliced file, it is exactly (0, duration). */
  lemma SingleChunkIsWholeFile(duration: real, threshold: int, chunkSec: int)
    requires duration > threshold as real && duration > 0.0 ==> chunkSec > 0
    requires |ChunksFor(duration, threshold, chunkSec)| == 1
    ensures ChunksFor(duration, threshold, chunkSec) == [Chunk(0.0, duration)]
  {
    if duration > threshold as real && duration > 0.0 {
      PlanPartitions(duration, chunkSec as real);
    }
  }

  function Fractions(raw: seq<Raw>, length: real, index: nat, total: nat): seq<real>
    requires total > 0
  {
    if length > 0.0 then
      seq(|raw|, (i: nat) requires i < |raw| => Scaled(index, Min(raw[i].end / length, 1.0), total))
    else []
  }

  /** Every progress call of the first k chunks, in order. */
  function AllFractions(chunks: seq<Chunk>, heard: seq<Hearing>, k: nat): seq<real>
    requires k <= |chunks| == |heard|
  {
    if k == 0 then []
    else AllFractions(chunks, heard, k - 1) + Fractions(heard[k - 1].raw, chunks[k - 1].length, k - 1, |chunks|)
  }

  function Results(chunks: seq<Chunk>, heard: seq<Hearing>): (r: seq<(real, seq<Raw>)>)
    requires |chunks| == |heard|
    ensures |r| == |chunks|
  {
    seq(|chunks|, (i: nat) requires i < |chunks| => (chunks[i].start, heard[i].raw))
  }

  /** The first language the recogniser named; Python's `or` also passes over an empty string. */
  function LanguageOf(heard: seq<Hearing>): string {
    if heard == [] then ""
    else if LanguageOf(heard[..|heard| - 1]) != "" then LanguageOf(heard[..|heard| - 1])
    else heard[|heard| - 1].language
  }

  /** The simple form of `transcribe`: merge, shape, build. */
  function TranscriptOf(chunks: seq<Chunk>, heard: seq<Hearing>, duration: real): Transcript
    requires |chunks| == |heard|
  {
    var language := LanguageOf(heard);
    BuildTranscript(ShapeSegments(MergeChunks(Results(chunks, heard))),
                    if language != "" then language else "unknown", duration)
  }

  method TranscribeWav(heard: Hearing, length: real, index: nat, total: nat, reporter: Reporter)
    returns (raw: seq<Raw>, language: string)
    requires total > 0
    modifies reporter
    ensures raw == heard.raw && language == heard.language
    ensures reporter.Value() == HeardAll(old(reporter.Value()), Fractions(heard.raw, length, index, total))
  {
    raw, language := [], heard.language;
    ghost var fs := Fractions(heard.raw, length, index, total);
    for i := 0 to |heard.raw|
      invariant raw == heard.raw[..i]
      invariant reporter.Value() == HeardAll(old(reporter.Value()), if length > 0.0 then fs[..i] else [])
    {
      raw := raw + [heard.raw[i]];
      if length > 0.0 {
        reporter.Report((index as real + Min(heard.raw[i].end / length, 1.0)) / total as real);
        assert fs[..i + 1][..i] == fs[..i];
      }
    }
    assert length > 0.0 ==> fs[..|fs|] == fs;
  }

  lemma {:induction false} MergeSnoc(chunks: seq<Chunk>, heard: seq<Hearing>, i: nat)
    requires i < |chunks| == |heard|
    ensures MergeChunks(Results(chunks[..i + 1], heard[..i + 1]))
         == MergeChunks(Results(chunks[..i], heard[..i])) + OffsetSegments(heard[i].raw, chunks[i].start)
    ensures LanguageOf(heard[..i + 1])
         == if LanguageOf(heard[..i]) != "" then LanguageOf(heard[..i]) else heard[i].language
  {
    assert Results(chunks[..i + 1], heard[..i + 1])[..i] == Results(chunks[..i], heard[..i]);
    assert heard[..i + 1][..i] == heard[..i];
  }

  /* ---------- what a transcript says ---------- */

  /** How many segments the first c chunks have. */
  function Before(heard: seq<Hearing>, c: nat): nat
    requires c <= |heard|
  {
    if c == 0 then 0 else Before(heard, c - 1) + |heard[c - 1].raw|
  }

  predicate Near(a: real, b: real) {
    b - 0.005 <= a <= b + 0.005
  }

  /** The text is the raw text without the whitespace at its ends. */
  ghost predicate Trimmed(raw: string, text: string) {
    exists before, after ::
      && raw == before + text + after && Blank(before) && Blank(after)
      && (text != [] ==> !IsSpace(text[0]) && !IsSpace(text[|text| - 1]))
  }

  /** A stored segment renders what was heard in a chunk that starts at `offset`. */
  ghost predicate Renders(segment: Segment, raw: Raw, offset: real, id: nat) {
    && segment.id == id
    && Near(segment.start, offset + raw.start) && Near(segment.end, offset + raw.end)
    && Trimmed(raw.text, segment.text)
  }

  /** Every text followed by a space. */
  function Spelled(segments: seq<Segment>): string {
    if segments == [] then "" else segments[0].text + " " + Spelled(segments[1..])
  }

  /** The first language the recogniser named, or "unknown". */
  ghost predicate SpeaksOf(heard: seq<Hearing>, language: string) {
    || (language == "unknown" && forall c :: 0 <= c < |heard| ==> heard[c].language == "")
    || (exists c :: 0 <= c < |heard| && heard[c].language == language != ""
                    && forall d :: 0 <= d < c ==> heard[d].language == "")
  }

  /** The k-th segment heard in chunk c stands where the chunks before it end. */
  ghost predicate Stores(t: Transcript, chunks: seq<Chunk>, heard: seq<Hearing>, c: nat, k: nat)
    requires c < |chunks| == |heard| && k < |heard[c].raw|
  {
    var i := Before(heard, c) + k;
    i < |t.segments| && Renders(t.segments[i], heard[c].raw[k], chunks[c].start, i)
  }

  /** The transcript holds what was heard, chunk by chunk and in order, and nothing else. */
  ghost predicate Says(t: Transcript, chunks: seq<Chunk>, heard: seq<Hearing>, duration: real)
    requires |chunks| == |heard|
  {
    && |t.segments| == Before(heard, |heard|)
    && (forall c: nat, k: nat :: c < |heard| && k < |heard[c].raw| ==> Stores(t, chunks, heard, c, k))
    && (if t.segments == [] then t.text == "" else t.text + " " == Spelled(t.segments))
    && SpeaksOf(heard, t.language)
    && Near(t.duration, duration)
  }

  /** The segments merged from the first n chunks. */
  function MergedFrom(chunks: seq<Chunk>, heard: seq<Hearing>, n: nat): seq<Raw>
    requires n <= |chunks| == |heard|
  {
    MergeChunks(Results(chunks[..n], heard[..n]))
  }

  lemma {:induction false} MergedLength(chunks: seq<Chunk>, heard: seq<Hearing>, n: nat)
    requires n <= |chunks| == |heard|
    ensures |MergedFrom(chunks, heard, n)| == Before(heard, n)
  {
    if n == 0 {
      assert Results(chunks[..0], heard[..0]) == [];
    } else {
      MergedLength(chunks, heard, n - 1);
      MergeSnoc(chunks, heard, n - 1);
    }
  }

  /** A raw segment on the time axis of the whole file. */
  function Shifted(raw: Raw, offset: real): Raw {
    Raw(raw.start + offset, raw.end + offset, raw.text)
  }

  lemma AppendedAt(before: seq<Raw>, raw: seq<Raw>, offset: real, i: nat)
    requires i < |before| + |raw|
    ensures (before + OffsetSegments(raw, offset))[i]
         == if i < |before| then before[i] else Shifted(raw[i - |before|], offset)
  {
  }

  /** Merging keeps the chunks in order and shifts each segment by the start of its chunk. */
  lemma {:induction false} MergedAt(chunks: seq<Chunk>, heard: seq<Hearing>, n: nat, c: nat, k: nat)
    requires c < n <= |chunks| == |heard| && k < |heard[c].raw|
    ensures Before(heard, c) + k < |MergedFrom(chunks, heard, n)|
    ensures MergedFrom(chunks, heard, n)[Before(heard, c) + k] == Shifted(heard[c].raw[k], chunks[c].start)
  {
    var i, before := Before(heard, c) + k, MergedFrom(chunks, heard, n - 1);
    MergedLength(chunks, heard, n - 1);
    MergeSnoc(chunks, heard, n - 1);
    if c < n - 1 { MergedAt(chunks, heard, n - 1, c, k); }
    AppendedAt(before, heard[n - 1].raw, chunks[n - 1].start, i);
  }

  lemma ShapedRenders(raw: seq<Raw>, i: nat, heard: Raw, offset: real)
    requires i < |raw| && raw[i] == Shifted(heard, offset)
    ensures Renders(ShapeSegments(raw)[i], heard, offset, i)
  {
    var before, after := StripCuts(heard.text);
  }

  lemma {:induction false} SpelledSnoc(segments: seq<Segment>, last: Segment)
    ensures Spelled(segments + [last]) == Spelled(segments) + last.text + " "
  {
    if segments == [] {
      assert [last][1..] == [] && [] + [last] == [last];
      assert Spelled([last]) == last.text + " " + "";
    } else {
      SpelledSnoc(segments[1..], last);
      assert (segments + [last])[1..] == segments[1..] + [last];
      var head, rest := segments[0].text + " ", Spelled(segments[1..]);
      assert head + (rest + last.text + " ") == head + rest + last.text + " ";
    }
  }

  lemma {:induction false} JoinSpelled(segments: seq<Segment>)
    requires segments != []
    ensures Join(segments) + " " == Spelled(segments)
  {
    var n := |segments| - 1;
    assert segments == segments[..n] + [segments[n]];
    SpelledSnoc(segments[..n], segments[n]);
    if n > 0 {
      JoinSpelled(segments[..n]);
    } else {
      assert segments[..0] == [];
    }
  }

  lemma {:induction false} LanguageSpeaks(heard: seq<Hearing>)
    ensures var language := LanguageOf(heard);
            if language == "" then forall c :: 0 <= c < |heard| ==> heard[c].language == ""
            else exists c :: 0 <= c < |heard| && heard[c].language == language
                             && forall d :: 0 <= d < c ==> heard[d].language == ""
  {
    if heard != [] {
      var n := |heard| - 1;
      LanguageSpeaks(heard[..n]);
      if LanguageOf(heard[..n]) != "" {
        var c :| 0 <= c < n && heard[..n][c].language == LanguageOf(heard[..n])
                 && forall d :: 0 <= d < c ==> heard[..n][d].language == "";
        assert forall d :: 0 <= d < c ==> heard[d].language == heard[..n][d].language;
        assert heard[c].language == LanguageOf(heard);
      } else {
        assert forall d :: 0 <= d < n ==> heard[d].language == heard[..n][d].language;
        assert heard[n].language == LanguageOf(heard);
      }
    }
  }

  lemma {:induction false} SegmentSays(chunks: seq<Chunk>, heard: seq<Hearing>, duration: real, c: nat, k: nat)
    requires c < |chunks| == |heard| && k < |heard[c].raw|
    ensures Stores(TranscriptOf(chunks, heard, duration), chunks, heard, c, k)
  {
    var n := |heard|;
    assert chunks[..n] == chunks && heard[..n] == heard;
    MergedLength(chunks, heard, n);
    MergedAt(chunks, heard, n, c, k);
    ShapedRenders(MergedFrom(chunks, heard, n), Before(heard, c) + k, heard[c].raw[k], chunks[c].start);
  }

  lemma {:induction false} LengthSays(chunks: seq<Chunk>, heard: seq<Hearing>, duration: real)
    requires |chunks| == |heard|
    ensures |TranscriptOf(chunks, heard, duration).segments| == Before(heard, |heard|)
  {
    assert chunks[..|chunks|] == chunks && heard[..|heard|] == heard;
    MergedLength(chunks, heard, |heard|);
  }

  /** The simple form says what was heard. */
  lemma {:induction false} TranscriptSays(chunks: seq<Chunk>, heard: seq<Hearing>, duration: real)
    requires |chunks| == |heard|
    ensures Says(TranscriptOf(chunks, heard, duration), chunks, heard, duration)
  {
    var t := TranscriptOf(chunks, heard, duration);
    LengthSays(chunks, heard, duration);
    forall c: nat, k: nat | c < |heard| && k < |heard[c].raw| ensures Stores(t, chunks, heard, c, k) {
      SegmentSays(chunks, heard, duration, c, k);
    }
    if t.segments != [] { JoinSpelled(t.segments); }
    LanguageSpeaks(heard);
  }

  /** The fused loop equals the simple form, and makes exactly the progress calls of the chunks in order. */
  method Transcribe(duration: real, threshold: int, chunkSec: int, heard: seq<Hearing>, reporter: Reporter)
    returns (t: Transcript)
    requires duration > threshold as real && duration > 0.0 ==> chunkSec > 0
    requires |heard| == |ChunksFor(duration, threshold, chunkSec)|
    modifies reporter
    ensures t == TranscriptOf(ChunksFor(duration, threshold, chunkSec), heard, duration)
    ensures Says(t, ChunksFor(duration, threshold, chunkSec), heard, duration)
    ensures reporter.Value()
         == HeardAll(old(reporter.Value()), AllFractions(ChunksFor(duration, threshold, chunkSec), heard, |heard|))
  {
    var chunks: seq<Chunk>;
    if duration > threshold as real {
      chunks := PlanChunks(duration, chunkSec as real);
    } else {
      chunks := [Chunk(0.0, duration)];
    }
    var merged: seq<Raw>, language := [], "";
    for index := 0 to |chunks|
      invariant merged == MergeChunks(Results(chunks[..index], heard[..index]))
      invariant language == LanguageOf(heard[..index])
      invariant reporter.Value() == HeardAll(old(reporter.Value()), AllFractions(chunks, heard, index))
    {
      MergeSnoc(chunks, heard, index);
      HeardAllConcat(old(reporter.Value()), AllFractions(chunks, heard, index),
                     Fractions(heard[index].raw, chunks[index].length, index, |chunks|));
      var raw, chunkLanguage := TranscribeWav(heard[index], chunks[index].length, index, |chunks|, reporter);
      language := if language != "" then language else chunkLanguage;
      merged := merged + OffsetSegments(raw, chunks[index].start);
    }
    assert chunks[..|chunks|] == chunks && heard[..|heard|] == heard;
    t := BuildTranscript(ShapeSegments(merged), if language != "" then language else "unknown", duration);
    TranscriptSays(chunks, heard, duration);
  }

  /* ---------- the timeline ---------- */

  /** Ordered segments between 0 and a limit: those of one chunk up to its length, or a timeline up to its end. */
  predicate OrderedUpTo(raw: seq<Raw>, limit: real) {
    && (forall i :: 0 <= i < |raw| ==> 0.0 <= raw[i].start <= raw[i].end <= limit)
    && (forall i, k :: 0 <= i < k < |raw| ==> raw[i].start <= raw[k].start)
  }

  lemma OrderedAppend(a: seq<Raw>, raw: seq<Raw>, offset: real, length: real)
    requires OrderedUpTo(a, offset) && OrderedUpTo(raw, length) && offset >= 0.0 && length >= 0.0
    ensures OrderedUpTo(a + OffsetSegments(raw, offset), offset + length)
  {
  }

  lemma {:induction false} MergedOrdered(duration: real, chunkSec: real, heard: seq<Hearing>, k: nat)
    requires duration > 0.0 && chunkSec > 0.0 && |heard| == Count(duration, chunkSec) && 1 <= k <= |heard|
    requires forall i :: 0 <= i < |heard| ==> OrderedUpTo(heard[i].raw, ChunkAt(i, duration, chunkSec).length)
    ensures OrderedUpTo(MergeChunks(Results(Plan(duration, chunkSec)[..k], heard[..k])),
                        ChunkAt(k - 1, duration, chunkSec).start + ChunkAt(k - 1, duration, chunkSec).length)
  {
    var p := Plan(duration, chunkSec);
    MergeSnoc(p, heard, k - 1);
    ChunkFits(k - 1, duration, chunkSec);
    if k > 1 {
      MergedOrdered(duration, chunkSec, heard, k - 1);
      ChunkFits(k - 2, duration, chunkSec);
    }
    OrderedAppend(MergeChunks(Results(p[..k - 1], heard[..k - 1])), heard[k - 1].raw,
                  ChunkAt(k - 1, duration, chunkSec).start, ChunkAt(k - 1, duration, chunkSec).length);
  }

  /** Stored segments: numbered 0..n-1, starts in order, start <= end, everything within the stored duration. */
  predicate GlobalTimeline(segments: seq<Segment>, duration: real) {
    && (forall i :: 0 <= i < |segments| ==>
          segments[i].id == i && 0.0 <= segments[i].start <= segments[i].end <= duration)
    && (forall i, k :: 0 <= i < k < |segments| ==> segments[i].start <= segments[k].start)
  }

  /** Rounding to two decimals keeps the order and the bounds. */
  lemma ShapedTimeline(raw: seq<Raw>, duration: real)
    requires OrderedUpTo(raw, duration)
    ensures GlobalTimeline(ShapeSegments(raw), Round2(duration))
  {
    var segments := ShapeSegments(raw);
    Round2Zero();
    forall i | 0 <= i < |segments|
      ensures segments[i].id == i && 0.0 <= segments[i].start <= segments[i].end <= Round2(duration)
    {
      Round2Monotone(0.0, raw[i].start);
      Round2Monotone(raw[i].start, raw[i].end);
      Round2Monotone(raw[i].end, duration);
    }
    forall i, k | 0 <= i < k < |segments| ensures segments[i].start <= segments[k].start {
      Round2Monotone(raw[i].start, raw[k].start);
    }
  }

  lemma {:induction false} SlicedOrdered(duration: real, chunkSec: real, heard: seq<Hearing>)
    requires duration > 0.0 && chunkSec > 0.0 && |heard| == Count(duration, chunkSec)
    requires forall i :: 0 <= i < |heard| ==> OrderedUpTo(heard[i].raw, ChunkAt(i, duration, chunkSec).length)
    ensures OrderedUpTo(MergeChunks(Results(Plan(duration, chunkSec), heard)), duration)
  {
    var chunks := Plan(duration, chunkSec);
    CountReached(0, duration, chunkSec);
    MergedOrdered(duration, chunkSec, heard, |heard|);
    assert chunks[..|chunks|] == chunks && heard[..|heard|] == heard;
    ChunkFits(|heard| - 1, duration, chunkSec);
  }

  lemma MergeOne(r: (real, seq<Raw>))
    ensures MergeChunks([r]) == OffsetSegments(r.1, r.0)
  {
    assert [r][..0] == [];
  }

  lemma OffsetZero(raw: seq<Raw>)
    ensures OffsetSegments(raw, 0.0) == raw
  {
    forall i | 0 <= i < |raw| ensures OffsetSegments(raw, 0.0)[i] == raw[i] {
      assert raw[i].start + 0.0 == raw[i].start && raw[i].end + 0.0 == raw[i].end;
    }
  }

  lemma {:induction false} UnslicedMerge(duration: real, heard: seq<Hearing>)
    requires |heard| == 1
    ensures MergeChunks(Results([Chunk(0.0, duration)], heard)) == heard[0].raw
  {
    assert Results([Chunk(0.0, duration)], heard) == [(0.0, heard[0].raw)];
    MergeOne((0.0, heard[0].raw));
    OffsetZero(heard[0].raw);
  }

  /** The main result: the stored transcript is one ordered timeline, across all chunk boundaries and after rounding. */
  lemma {:induction false} TimelineOrdered(duration: real, threshold: int, chunkSec: int, heard: seq<Hearing>)
    requires duration > threshold as real && duration > 0.0 ==> chunkSec > 0
    requires |heard| == |ChunksFor(duration, threshold, chunkSec)|
    requires forall i :: 0 <= i < |heard| ==>
               OrderedUpTo(heard[i].raw, ChunksFor(duration, threshold, chunkSec)[i].length)
    ensures var t := TranscriptOf(ChunksFor(duration, threshold, chunkSec), heard, duration);
            GlobalTimeline(t.segments, t.duration)
  {
    var merged := MergeChunks(Results(ChunksFor(duration, threshold, chunkSec), heard));
    assert OrderedUpTo(merged, duration) by {
      if duration <= threshold as real {
        UnslicedMerge(duration, heard);
      } else if duration > 0.0 {
        SlicedOrdered(duration, chunkSec as real, heard);
      }
    }
    ShapedTimeline(merged, duration);
  }

  /* ---------- progress over the whole job ---------- */

  lemma {:induction false} CallsCounted(chunks: seq<Chunk>, heard: seq<Hearing>, n: nat)
    requires n <= |chunks| == |heard| && forall c :: 0 <= c < n ==> chunks[c].length > 0.0
    ensures |AllFractions(chunks, heard, n)| == Before(heard, n)
  {
    if n > 0 { CallsCounted(chunks, heard, n - 1); }
  }

  /** One call for each segment heard, in order: chunk c of n, and the share of the chunk up to the segment's end. */
  lemma {:induction false} CallAt(chunks: seq<Chunk>, heard: seq<Hearing>, n: nat, c: nat, k: nat)
    requires c < n <= |chunks| == |heard| && k < |heard[c].raw|
    requires forall d :: 0 <= d < n ==> chunks[d].length > 0.0
    ensures Before(heard, c) + k < |AllFractions(chunks, heard, n)|
    ensures AllFractions(chunks, heard, n)[Before(heard, c) + k]
         == (c as real + Min(heard[c].raw[k].end / chunks[c].length, 1.0)) / |chunks| as real
  {
    CallsCounted(chunks, heard, n - 1);
    if c < n - 1 { CallAt(chunks, heard, n - 1, c, k); }
  }

  /** Seconds of the file up to the end of the k-th segment of chunk c, as far as the chunk goes. */
  function HeardUpTo(chunks: seq<Chunk>, heard: seq<Hearing>, c: nat, k: nat): real
    requires c < |chunks| == |heard| && k < |heard[c].raw|
  {
    chunks[c].start + Min(heard[c].raw[k].end, chunks[c].length)
  }

  lemma ShareOfChunk(end: real, length: real)
    requires length > 0.0
    ensures Min(end / length, 1.0) * length == Min(end, length)
  {
    var q := end / length;
    assert q * length == end;
    if q > 1.0 { Scale(1.0, q, length); } else { ScaleLe(q, 1.0, length); }
  }

  lemma {:induction false} PlannedCall(duration: real, chunkSec: real, heard: seq<Hearing>, c: nat, k: nat)
    requires duration > 0.0 && chunkSec > 0.0 && |heard| == Count(duration, chunkSec)
    requires c < |heard| && k < |heard[c].raw|
    ensures var chunks := Plan(duration, chunkSec);
            var calls := AllFractions(chunks, heard, |heard|);
            && |calls| == Before(heard, |heard|) && Before(heard, c) + k < |calls|
            && chunks[c].length > 0.0
            && calls[Before(heard, c) + k] == Scaled(c, Min(heard[c].raw[k].end / chunks[c].length, 1.0), |heard|)
  {
    var chunks := Plan(duration, chunkSec);
    forall d | 0 <= d < |chunks| ensures chunks[d].length > 0.0 { ChunkFits(d, duration, chunkSec); }
    CallsCounted(chunks, heard, |heard|);
    CallAt(chunks, heard, |heard|, c, k);
  }

  lemma PlannedShare(duration: real, chunkSec: real, c: nat, end: real)
    requires duration > 0.0 && chunkSec > 0.0 && c < Count(duration, chunkSec) && end >= 0.0
    ensures var chunk, n := ChunkAt(c, duration, chunkSec), Count(duration, chunkSec);
            && chunk.length > 0.0
            && var call := Scaled(c, Min(end / chunk.length, 1.0), n);
               var share := (chunk.start + Min(end, chunk.length)) / duration;
               0.0 <= call <= share <= 1.0 && share < call + 1.0 / n as real
  {
    var chunk := ChunkAt(c, duration, chunkSec);
    ChunkFits(c, duration, chunkSec);
    ShareInUnit(end, chunk.length);
    ShareOfChunk(end, chunk.length);
    ProgressHonest(c, Min(end / chunk.length, 1.0), duration, chunkSec);
  }

  /**
    * Every progress call of a sliced file: in [0, 1], never more than the share of the file
    * heard so far, and short of it by less than one chunk's share.
    */
  lemma {:induction false} CallsHonest(duration: real, chunkSec: real, heard: seq<Hearing>, c: nat, k: nat)
    requires duration > 0.0 && chunkSec > 0.0 && |heard| == Count(duration, chunkSec)
    requires c < |heard| && k < |heard[c].raw| && heard[c].raw[k].end >= 0.0
    ensures var chunks := Plan(duration, chunkSec);
            var calls, share := AllFractions(chunks, heard, |heard|), HeardUpTo(chunks, heard, c, k) / duration;
            && |calls| == Before(heard, |heard|) && Before(heard, c) + k < |calls|
            && 0.0 <= calls[Before(heard, c) + k] <= share <= 1.0
            && share < calls[Before(heard, c) + k] + 1.0 / |heard| as real
  {
    PlannedCall(duration, chunkSec, heard, c, k);
    PlannedShare(duration, chunkSec, c, heard[c].raw[k].end);
  }

  /** An unsliced file: every call is exactly the share of the file heard so far. */
  lemma {:induction false} CallsExact(duration: real, heard: seq<Hearing>, k: nat)
    requires duration > 0.0 && |heard| == 1 && k < |heard[0].raw|
    ensures var calls := AllFractions([Chunk(0.0, duration)], heard, 1);
            |calls| == |heard[0].raw| && calls[k] == Min(heard[0].raw[k].end / duration, 1.0)
  {
    var chunks := [Chunk(0.0, duration)];
    CallsCounted(chunks, heard, 1);
    CallAt(chunks, heard, 1, 0, k);
    assert Before(heard, 0) == 0 && Before(heard, 1) == |heard[0].raw|;
  }

  predicate EndsClimb(raw: seq<Raw>) {
    && (forall i :: 0 <= i < |raw| ==> raw[i].end >= 0.0)
    && (forall i, k :: 0 <= i < k < |raw| ==> raw[i].end <= raw[k].end)
  }

  predicate ClimbsUpTo(fs: seq<real>, limit: real) {
    && (forall i :: 0 <= i < |fs| ==> 0.0 <= fs[i] <= limit)
    && (forall i, k :: 0 <= i < k < |fs| ==> fs[i] <= fs[k])
  }

  lemma ShareInUnit(end: real, length: real)
    requires end >= 0.0 && length > 0.0
    ensures 0.0 <= Min(end / length, 1.0) <= 1.0
  {
    CrossLe(0.0, 1.0, end, length);
  }

  lemma ChunkClimbs(raw: seq<Raw>, length: real, index: nat, total: nat)
    requires EndsClimb(raw) && index < total
    ensures var fs := Fractions(raw, length, index, total);
            && ClimbsUpTo(fs, Scaled(index, 1.0, total))
            && (forall i :: 0 <= i < |fs| ==> Scaled(index, 0.0, total) <= fs[i])
  {
    if length > 0.0 {
      var fs := Fractions(raw, length, index, total);
      Scaled0(index, total);
      forall i | 0 <= i < |fs| ensures Scaled(index, 0.0, total) <= fs[i] <= Scaled(index, 1.0, total) {
        ShareInUnit(raw[i].end, length);
        ProgressMonotone(index, 0.0, index, Min(raw[i].end / length, 1.0), total);
        ProgressMonotone(index, Min(raw[i].end / length, 1.0), index, 1.0, total);
      }
      forall i, k | 0 <= i < k < |fs| ensures fs[i] <= fs[k] {
        ShareInUnit(raw[i].end, length);
        ShareInUnit(raw[k].end, length);
        CrossLe(raw[i].end, length, raw[k].end, length) by { ScaleLe(raw[i].end, raw[k].end, length); }
        ProgressMonotone(index, Min(raw[i].end / length, 1.0), index, Min(raw[k].end / length, 1.0), total);
      }
    }
  }

  lemma Scaled0(index: nat, total: nat)
    requires total > 0
    ensures Scaled(index, 0.0, total) >= 0.0
  {
    CrossLe(0.0, 1.0, index as real + 0.0, total as real);
  }

  lemma {:induction false} FractionsClimb(chunks: seq<Chunk>, heard: seq<Hearing>, k: nat)
    requires k <= |chunks| == |heard|
    requires forall i :: 0 <= i < |heard| ==> EndsClimb(heard[i].raw)
    ensures k > 0 ==> ClimbsUpTo(AllFractions(chunks, heard, k), Scaled(k - 1, 1.0, |chunks|))
  {
    if k > 0 {
      FractionsClimb(chunks, heard, k - 1);
      ChunkClimbs(heard[k - 1].raw, chunks[k - 1].length, k - 1, |chunks|);
      if k > 1 {
        ProgressMonotone(k - 2, 1.0, k - 1, 0.0, |chunks|);
        ProgressMonotone(k - 2, 1.0, k - 1, 1.0, |chunks|);
      }
    }
  }

  predicate AtMostOne(fs: seq<real>) {
    forall i :: 0 <= i < |fs| ==> fs[i] <= 1.0
  }

  lemma ChunkAtMostOne(raw: seq<Raw>, length: real, index: nat, total: nat)
    requires index < total
    ensures AtMostOne(Fractions(raw, length, index, total))
  {
    var fs := Fractions(raw, length, index, total);
    forall i | 0 <= i < |fs| ensures fs[i] <= 1.0 {
      CrossLe(index as real + Min(raw[i].end / length, 1.0), total as real, 1.0, 1.0);
    }
  }

  /** Whatever the recogniser returns, no progress call exceeds 1. */
  lemma {:induction false} FractionsAtMostOne(chunks: seq<Chunk>, heard: seq<Hearing>, k: nat)
    requires k <= |chunks| == |heard|
    ensures AtMostOne(AllFractions(chunks, heard, k))
  {
    if k > 0 {
      FractionsAtMostOne(chunks, heard, k - 1);
      ChunkAtMostOne(heard[k - 1].raw, chunks[k - 1].length, k - 1, |chunks|);
    }
  }

  /**
    * One attempt on any file, with whatever segments the recogniser returns: at most ten
    * writes, strictly increasing, each a legal progress value.
    */
  lemma {:induction false} AttemptWrites(chunks: seq<Chunk>, heard: seq<Hearing>)
    requires |chunks| == |heard|
    ensures var g := HeardAll(START, AllFractions(chunks, heard, |chunks|));
            && |g.issued| <= 10
            && StrictlyIncreasing(g.issued)
            && (forall i :: 0 <= i < |g.issued| ==> 0.0 < g.issued[i] <= 1.0)
  {
    FractionsAtMostOne(chunks, heard, |chunks|);
    ThrottleSound(AllFractions(chunks, heard, |chunks|));
  }

  /** With segment ends in order the calls climb through [0, 1] across all chunks. */
  lemma {:induction false} AttemptClimbs(chunks: seq<Chunk>, heard: seq<Hearing>)
    requires |chunks| == |heard|
    requires forall i :: 0 <= i < |heard| ==> EndsClimb(heard[i].raw)
    ensures ClimbsUpTo(AllFractions(chunks, heard, |chunks|), 1.0)
  {
    var n: nat := |chunks|;
    if n > 0 { FullShare(n); }
    FractionsClimb(chunks, heard, n);
  }

  lemma FullShare(total: nat)
    requires total > 0
    ensures Scaled(total - 1, 1.0, total) == 1.0
  {
    assert (total - 1) as real + 1.0 == total as real;
  }
}
