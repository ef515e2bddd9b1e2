/** From the worker's stored transcript to the API's subtitle files. */
module Export {
  import opened Domain
  import opened Transcriber
  import opened Subtitles

  predicate OneLineTexts(segments: seq<Segment>) {
    forall i :: 0 <= i < |segments| ==> '\n' !in segments[i].text
  }

  /** The cue says what is stored: number, exact times, text. */
  predicate SaysExactly(c: Cue, segment: Segment) {
    && c.number == segment.id + 1
    && c.startMs as real == segment.start * 1000.0
    && c.endMs as real == segment.end * 1000.0
    && c.text == segment.text
  }

  lemma NonNegativeMillis(x: real)
    requires x >= 0.0
    ensures Millis(x) >= 0
  {
  }

  lemma ShapedCue(raw: seq<Raw>, i: nat)
    requires i < |raw|
    ensures SaysExactly(CueOf(ShapeSegments(raw)[i], i + 1), ShapeSegments(raw)[i])
  {
    StoredTimeExact(raw[i].start);
    StoredTimeExact(raw[i].end);
  }

  lemma TimelinePrintable(raw: seq<Raw>, duration: real)
    requires OrderedUpTo(raw, duration)
    ensures Printable(ShapeSegments(raw)) <==> OneLineTexts(ShapeSegments(raw))
  {
    var segments := ShapeSegments(raw);
    ShapedTimeline(raw, duration);
    forall i | 0 <= i < |segments|
      ensures Readable(CueOf(segments[i], 0)) <==> '\n' !in segments[i].text
    {
      NonNegativeMillis(segments[i].start);
      NonNegativeMillis(segments[i].end);
    }
  }

  lemma ShapedCues(raw: seq<Raw>)
    ensures var segments := ShapeSegments(raw);
            forall i :: 0 <= i < |segments| ==> SaysExactly(CuesOf(segments, 1)[i], segments[i])
  {
    var segments := ShapeSegments(raw);
    forall i | 0 <= i < |segments| ensures SaysExactly(CuesOf(segments, 1)[i], segments[i]) {
      ShapedCue(raw, i);
      assert CuesOf(segments, 1)[i] == CueOf(segments[i], 1 + i);
    }
  }

  /**
    * Every transcript with an ordered timeline is exported without loss in both formats,
    * exactly when no text contains a line break: reading the file gives, for each stored
    * segment, its number, its times to the millisecond and its text.
    */
  lemma TranscriptExported(raw: seq<Raw>, duration: real)
    requires OrderedUpTo(raw, duration)
    ensures var segments := ShapeSegments(raw); var cues := CuesOf(segments, 1);
            && (ParseSrt(ToSrt(segments)) == Some(cues) <==> OneLineTexts(segments))
            && (ParseVtt(ToVtt(segments)) == Some(cues) <==> OneLineTexts(segments))
            && (forall i :: 0 <= i < |segments| ==> SaysExactly(cues[i], segments[i]))
  {
    var segments := ShapeSegments(raw);
    TimelinePrintable(raw, duration);
    SrtRoundTripIff(segments);
    VttRoundTripIff(segments);
    ShapedCues(raw);
  }
}
