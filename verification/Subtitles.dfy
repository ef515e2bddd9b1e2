/** api/src/transcriptions/srt.util.ts, and a parser that undoes it. */
module Subtitles {
  import opened Domain
  import opened Rounding

  /* ---------- numbers ---------- */

  function Digit(d: nat): char
    requires d < 10
  {
    "0123456789"[d]
  }

  function Digits(n: nat): (s: string)
    ensures s != []
  {
    if n < 10 then [Digit(n)] else Digits(n / 10) + [Digit(n % 10)]
  }

  /** String(n) for an integer. */
  function ToString(n: int): string {
    if n < 0 then "-" + Digits(-n) else Digits(n)
  }

  function PadStart(s: string, width: nat): string
    decreases width - |s|
  {
    if |s| >= width then s else PadStart("0" + s, width)
  }

  predicate IsDigit(c: char) {
    '0' <= c <= '9'
  }

  predicate AllDigits(s: string) {
    forall i :: 0 <= i < |s| ==> IsDigit(s[i])
  }

  function Value(s: string): nat
    requires AllDigits(s)
  {
    if s == [] then 0 else 10 * Value(s[..|s| - 1]) + (s[|s| - 1] as int - '0' as int)
  }

  function ParseNat(s: string): Option<nat> {
    if s != [] && AllDigits(s) then Some(Value(s)) else None
  }

  lemma DigitValue(d: nat)
    requires d < 10
    ensures IsDigit(Digit(d)) && Digit(d) as int - '0' as int == d
  {
  }

  lemma {:induction false} DigitsParse(n: nat)
    ensures AllDigits(Digits(n)) && Value(Digits(n)) == n
  {
    DigitValue(n % 10);
    if n >= 10 {
      DigitsParse(n / 10);
      assert Digits(n)[..|Digits(n)| - 1] == Digits(n / 10);
    } else {
      assert Digits(n)[..0] == [];
    }
  }

  lemma {:induction false} LeadingZero(s: string)
    requires AllDigits(s)
    ensures AllDigits("0" + s) && Value("0" + s) == Value(s)
  {
    if s == [] {
      assert "0"[..0] == [] && "0" + s == "0";
    } else {
      LeadingZero(s[..|s| - 1]);
      assert ("0" + s)[..|s|] == "0" + s[..|s| - 1];
    }
  }

  lemma {:induction false} PadParse(s: string, width: nat)
    requires s != [] && AllDigits(s)
    ensures ParseNat(PadStart(s, width)) == Some(Value(s))
    ensures |PadStart(s, width)| == if |s| >= width then |s| else width
    decreases width - |s|
  {
    if |s| < width {
      LeadingZero(s);
      PadParse("0" + s, width);
    }
  }

  lemma DigitsLength(n: nat)
    ensures n < 10 ==> |Digits(n)| == 1
    ensures 10 <= n < 100 ==> |Digits(n)| == 2
    ensures 100 <= n < 1000 ==> |Digits(n)| == 3
  {
  }

  /** A padded field has its width and parses back. */
  lemma Field(n: nat, width: nat)
    ensures var f := PadStart(ToString(n), width);
            && ParseNat(f) == Some(n) && AllDigits(f) && |f| >= width
            && ((width == 2 && n < 100) || (width == 3 && n < 1000) ==> |f| == width)
  {
    DigitsParse(n);
    DigitsLength(n);
    PadParse(Digits(n), width);
  }

  /* ---------- timestamps ---------- */

  /** JavaScript's %: the sign of the dividend. */
  function Remainder(a: int, b: int): int
    requires b > 0
  {
    if a >= 0 then a % b else -((-a) % b)
  }

  function Millis(seconds: real): int {
    MathRound(seconds * 1000.0)
  }

  function Stamp(h: int, m: int, s: int, ms: int, separator: char): string {
    PadStart(ToString(h), 2) + ":" + PadStart(ToString(m), 2) + ":" + PadStart(ToString(s), 2)
    + [separator] + PadStart(ToString(ms), 3)
  }

  function FormatMillis(totalMs: int, separator: char): string {
    var totalSeconds := totalMs / 1000;
    Stamp(totalSeconds / 3600, Remainder(totalSeconds / 60, 60), Remainder(totalSeconds, 60), Remainder(totalMs, 1000),
          separator)
  }

  function FormatTimestamp(seconds: real, separator: char): string {
    FormatMillis(Millis(seconds), separator)
  }

  /** hh..h:mm:ss<sep>mmm with minutes and seconds below 60, read from the right. */
  function ParseTimestamp(t: string, separator: char): Option<nat> {
    if |t| < 12 then None
    else
      var n := |t|;
      if t[n - 4] != separator || t[n - 7] != ':' || t[n - 10] != ':' then None
      else
        var h, m := ParseNat(t[..n - 10]), ParseNat(t[n - 9..n - 7]);
        var s, ms := ParseNat(t[n - 6..n - 4]), ParseNat(t[n - 3..]);
        if h.None? || m.None? || s.None? || ms.None? || m.value >= 60 || s.value >= 60 then None
        else Some(((h.value * 60 + m.value) * 60 + s.value) * 1000 + ms.value)
  }

  /** The pieces of a timestamp are where the parser looks for them. */
  lemma Assemble(h: string, m: string, s: string, ms: string, separator: char)
    requires |h| >= 2 && |m| == 2 && |s| == 2 && |ms| == 3
    ensures var t := h + ":" + m + ":" + s + [separator] + ms;
            var n := |t|;
            && n == |h| + 10 && t[n - 4] == separator && t[n - 7] == ':' && t[n - 10] == ':'
            && t[..n - 10] == h && t[n - 9..n - 7] == m && t[n - 6..n - 4] == s && t[n - 3..] == ms
  {
  }

  /** Four fields that parse, put together, parse to the millisecond count they make up. */
  lemma FieldsParse(hs: string, ms: string, ss: string, mss: string, separator: char,
                    h: nat, m: nat, s: nat, milli: nat)
    requires |hs| >= 2 && |ms| == 2 && |ss| == 2 && |mss| == 3 && m < 60 && s < 60
    requires ParseNat(hs) == Some(h) && ParseNat(ms) == Some(m)
    requires ParseNat(ss) == Some(s) && ParseNat(mss) == Some(milli)
    ensures ParseTimestamp(hs + ":" + ms + ":" + ss + [separator] + mss, separator)
         == Some(((h * 60 + m) * 60 + s) * 1000 + milli)
  {
    Assemble(hs, ms, ss, mss, separator);
  }

  lemma StampParses(h: nat, m: nat, s: nat, ms: nat, separator: char, t: nat)
    requires m < 60 && s < 60 && ms < 1000 && t == ((h * 60 + m) * 60 + s) * 1000 + ms
    ensures ParseTimestamp(Stamp(h, m, s, ms, separator), separator) == Some(t)
  {
    Field(h, 2);
    Field(m, 2);
    Field(s, 2);
    Field(ms, 3);
    FieldsParse(PadStart(ToString(h), 2), PadStart(ToString(m), 2), PadStart(ToString(s), 2), PadStart(ToString(ms), 3),
                separator, h, m, s, ms);
  }

  lemma HoursAreSixtySixties(s: nat)
    ensures s / 3600 == (s / 60) / 60
  {
  }

  /** The four printed numbers are in range and put the millisecond count back together. */
  lemma SplitMillis(t: nat, separator: char) returns (h: nat, m: nat, s: nat, ms: nat)
    ensures m < 60 && s < 60 && ms < 1000 && t == ((h * 60 + m) * 60 + s) * 1000 + ms
    ensures FormatMillis(t, separator) == Stamp(h, m, s, ms, separator)
  {
    h, m, s, ms := t / 1000 / 3600, (t / 1000 / 60) % 60, (t / 1000) % 60, t % 1000;
    HoursAreSixtySixties(t / 1000);
    assert t / 1000 / 60 == h * 60 + m;
    assert t / 1000 == t / 1000 / 60 * 60 + s;
  }

  /** The parser inverts the printer for every millisecond count, however many hours it has. */
  lemma TimestampRoundTrip(t: nat, separator: char)
    ensures ParseTimestamp(FormatMillis(t, separator), separator) == Some(t)
  {
    var h, m, s, ms := SplitMillis(t, separator);
    StampParses(h, m, s, ms, separator, t);
  }

  predicate Plain(t: string, separator: char) {
    forall i :: 0 <= i < |t| ==> IsDigit(t[i]) || t[i] == ':' || t[i] == separator
  }

  lemma PlainParts(h: string, m: string, s: string, ms: string, separator: char)
    requires AllDigits(h) && AllDigits(m) && AllDigits(s) && AllDigits(ms)
    ensures Plain(h + ":" + m + ":" + s + [separator] + ms, separator)
  {
  }

  lemma TimestampPlain(t: nat, separator: char)
    ensures Plain(FormatMillis(t, separator), separator)
  {
    var h, m, s, ms := SplitMillis(t, separator);
    Field(h, 2);
    Field(m, 2);
    Field(s, 2);
    Field(ms, 3);
    PlainParts(PadStart(ToString(h), 2), PadStart(ToString(m), 2), PadStart(ToString(s), 2), PadStart(ToString(ms), 3),
               separator);
  }

  lemma WholeMillis(k: int)
    ensures k as real / 100.0 * 1000.0 == (10 * k) as real
    ensures MathRound((10 * k) as real) == 10 * k
  {
  }

  /** Times stored with two decimals are printed without loss. */
  lemma StoredTimeExact(x: real)
    ensures Millis(Round2(x)) as real == Round2(x) * 1000.0
  {
    WholeMillis(RoundHalfEven(x * 100.0));
  }

  /* ---------- lines ---------- */

  /** The text split at newlines. */
  function Lines(s: string): (ls: seq<string>)
    ensures ls != []
  {
    if s == [] then [""]
    else if s[0] == '\n' then [""] + Lines(s[1..])
    else var r := Lines(s[1..]); [[s[0]] + r[0]] + r[1..]
  }

  lemma {:induction false} LinesHeadTail(line: string, rest: string)
    requires '\n' !in line
    ensures Lines(line + "\n" + rest) == [line] + Lines(rest)
  {
    var s := line + "\n" + rest;
    if line == [] {
      assert s[1..] == rest;
    } else {
      LinesHeadTail(line[1..], rest);
      assert s[1..] == line[1..] + "\n" + rest;
      assert [line[0]] + line[1..] == line;
    }
  }

  lemma {:induction false} LinesHaveNoNewline(s: string)
    ensures forall i :: 0 <= i < |Lines(s)| ==> '\n' !in Lines(s)[i]
  {
    if s != [] {
      LinesHaveNoNewline(s[1..]);
    }
  }

  /* ---------- documents ---------- */

  function TimesLine(segment: Segment, separator: char): string {
    FormatTimestamp(segment.start, separator) + " --> " + FormatTimestamp(segment.end, separator)
  }

  function CueText(segment: Segment, number: nat, separator: char): string {
    ToString(number) + "\n" + TimesLine(segment, separator) + "\n" + segment.text + "\n"
  }

  /** map(...).join('\n'), numbering from a given cue. */
  function CuesText(segments: seq<Segment>, first: nat, separator: char): string {
    if segments == [] then ""
    else if |segments| == 1 then CueText(segments[0], first, separator)
    else CueText(segments[0], first, separator) + "\n" + CuesText(segments[1..], first + 1, separator)
  }

  function ToSrt(segments: seq<Segment>): string {
    CuesText(segments, 1, ',')
  }

  function ToVtt(segments: seq<Segment>): string {
    "WEBVTT\n\n" + CuesText(segments, 1, '.')
  }

  datatype Cue = Cue(number: nat, startMs: int, endMs: int, text: string)

  function IndexOfSpace(s: string): nat {
    if s == [] || s[0] == ' ' then 0 else 1 + IndexOfSpace(s[1..])
  }

  function ParseTimes(line: string, separator: char): Option<(nat, nat)> {
    var i := IndexOfSpace(line);
    if i + 5 > |line| || line[i..i + 5] != " --> " then None
    else
      var a, b := ParseTimestamp(line[..i], separator), ParseTimestamp(line[i + 5..], separator);
      if a.None? || b.None? then None else Some((a.value, b.value))
  }

  /** Four lines to a cue: number, times, text, blank. */
  function ParseBlocks(ls: seq<string>, separator: char): Option<seq<Cue>> {
    if ls == [] then Some([])
    else if |ls| < 4 || ls[3] != "" then None
    else
      var number, times, rest := ParseNat(ls[0]), ParseTimes(ls[1], separator), ParseBlocks(ls[4..], separator);
      if number.None? || times.None? || rest.None? then None
      else Some([Cue(number.value, times.value.0, times.value.1, ls[2])] + rest.value)
  }

  function ParseCues(doc: string, separator: char): Option<seq<Cue>> {
    if doc == "" then Some([]) else ParseBlocks(Lines(doc), separator)
  }

  function ParseSrt(doc: string): Option<seq<Cue>> {
    ParseCues(doc, ',')
  }

  function ParseVtt(doc: string): Option<seq<Cue>> {
    if "WEBVTT\n\n" <= doc then ParseCues(doc[8..], '.') else None
  }

  function CueOf(segment: Segment, number: nat): Cue {
    Cue(number, Millis(segment.start), Millis(segment.end), segment.text)
  }

  /** What the document should say. */
  function CuesOf(segments: seq<Segment>, first: nat): (cs: seq<Cue>)
    ensures |cs| == |segments|
  {
    seq(|segments|, (i: nat) requires i < |segments| => CueOf(segments[i], first + i))
  }

  /** The parser can only ever return cues like this. */
  predicate Readable(c: Cue) {
    c.startMs >= 0 && c.endMs >= 0 && '\n' !in c.text
  }

  predicate Printable(segments: seq<Segment>) {
    forall i :: 0 <= i < |segments| ==> Readable(CueOf(segments[i], 0))
  }

  lemma {:induction false} FirstSpace(a: string, b: string)
    requires ' ' !in a
    ensures IndexOfSpace(a + " " + b) == |a|
  {
    if a != [] {
      FirstSpace(a[1..], b);
      assert (a + " " + b)[1..] == a[1..] + " " + b;
    }
  }

  lemma ArrowSplits(a: string, b: string, separator: char)
    requires Plain(a, separator) && separator != ' '
    ensures var line := a + " --> " + b;
            && IndexOfSpace(line) == |a| && line[..|a|] == a && line[|a|..|a| + 5] == " --> " && line[|a| + 5..] == b
  {
    FirstSpace(a, "--> " + b);
    assert a + " --> " + b == a + " " + ("--> " + b);
  }

  lemma ArrowParses(a: string, b: string, separator: char, t0: nat, t1: nat)
    requires Plain(a, separator) && Plain(b, separator) && separator != ' ' && separator != '\n'
    requires ParseTimestamp(a, separator) == Some(t0) && ParseTimestamp(b, separator) == Some(t1)
    ensures ParseTimes(a + " --> " + b, separator) == Some((t0, t1))
    ensures '\n' !in a + " --> " + b
  {
    ArrowSplits(a, b, separator);
  }

  lemma TimesRoundTrip(segment: Segment, separator: char, t0: nat, t1: nat)
    requires t0 == Millis(segment.start) && t1 == Millis(segment.end) && separator != ' ' && separator != '\n'
    ensures ParseTimes(TimesLine(segment, separator), separator) == Some((t0, t1))
    ensures '\n' !in TimesLine(segment, separator)
  {
    TimestampRoundTrip(t0, separator);
    TimestampRoundTrip(t1, separator);
    TimestampPlain(t0, separator);
    TimestampPlain(t1, separator);
    ArrowParses(FormatMillis(t0, separator), FormatMillis(t1, separator), separator, t0, t1);
  }

  lemma Associate(a: string, b: string, c: string)
    ensures a + b + c == a + (b + c)
  {
  }

  lemma TwoLines(times: string, text: string, rest: string)
    requires '\n' !in times && '\n' !in text
    ensures Lines(times + "\n" + (text + "\n" + rest)) == [times, text] + Lines(rest)
  {
    LinesHeadTail(text, rest);
    LinesHeadTail(times, text + "\n" + rest);
  }

  lemma RightNested(number: string, times: string, text: string, rest: string)
    ensures number + "\n" + times + "\n" + text + "\n" + rest
         == number + "\n" + (times + "\n" + (text + "\n" + rest))
  {
  }

  /** The three lines of a cue come back as three lines. */
  lemma ThreeLines(number: string, times: string, text: string, rest: string)
    requires '\n' !in number && '\n' !in times && '\n' !in text
    ensures Lines(number + "\n" + times + "\n" + text + "\n" + rest) == [number, times, text] + Lines(rest)
  {
    RightNested(number, times, text, rest);
    TwoLines(times, text, rest);
    LinesHeadTail(number, times + "\n" + (text + "\n" + rest));
    assert [number] + ([times, text] + Lines(rest)) == [number, times, text] + Lines(rest);
  }

  lemma BlockAhead(number: string, times: string, text: string, more: seq<string>, separator: char, cs: seq<Cue>)
    requires ParseNat(number).Some? && ParseTimes(times, separator).Some? && ParseBlocks(more, separator) == Some(cs)
    ensures var t := ParseTimes(times, separator).value;
            ParseBlocks([number, times, text, ""] + more, separator)
            == Some([Cue(ParseNat(number).value, t.0, t.1, text)] + cs)
  {
    var ls := [number, times, text, ""] + more;
    assert ls[4..] == more;
  }

  /** A printed cue and its blank line, ahead of lines that parse, parse as that cue ahead of theirs. */
  lemma LinesAhead(number: string, times: string, text: string, rest: string, more: seq<string>, separator: char,
                   c: Cue, cs: seq<Cue>)
    requires '\n' !in number && '\n' !in times && '\n' !in text && c.text == text && c.startMs >= 0 && c.endMs >= 0
    requires ParseNat(number) == Some(c.number) && ParseTimes(times, separator) == Some((c.startMs, c.endMs))
    requires Lines(rest) == [""] + more && ParseBlocks(more, separator) == Some(cs)
    ensures ParseBlocks(Lines(number + "\n" + times + "\n" + text + "\n" + rest), separator) == Some([c] + cs)
  {
    ThreeLines(number, times, text, rest);
    assert [number, times, text] + ([""] + more) == [number, times, text, ""] + more;
    BlockAhead(number, times, text, more, separator, cs);
  }

  lemma NumberLine(n: nat)
    ensures ParseNat(ToString(n)) == Some(n) && '\n' !in ToString(n)
  {
    DigitsParse(n);
  }

  lemma CueAhead(segment: Segment, number: nat, separator: char, rest: string, more: seq<string>, c: Cue, cs: seq<Cue>)
    requires c == CueOf(segment, number) && Readable(c) && separator != ' ' && separator != '\n'
    requires Lines(rest) == [""] + more && ParseBlocks(more, separator) == Some(cs)
    ensures ParseBlocks(Lines(CueText(segment, number, separator) + rest), separator) == Some([c] + cs)
  {
    NumberLine(number);
    TimesRoundTrip(segment, separator, c.startMs, c.endMs);
    LinesAhead(ToString(number), TimesLine(segment, separator), segment.text, rest, more, separator, c, cs);
  }

  lemma LastCue(segment: Segment, number: nat, separator: char, c: Cue)
    requires c == CueOf(segment, number) && Readable(c) && separator != ' ' && separator != '\n'
    ensures ParseBlocks(Lines(CueText(segment, number, separator)), separator) == Some([c])
  {
    CueAhead(segment, number, separator, "", [], c, []);
    assert CueText(segment, number, separator) + "" == CueText(segment, number, separator);
    assert [c] + [] == [c];
  }

  lemma BlankLine(rest: string)
    ensures Lines("\n" + rest) == [""] + Lines(rest)
  {
    LinesHeadTail("", rest);
    assert "" + "\n" + rest == "\n" + rest;
  }

  lemma NextCue(segment: Segment, number: nat, separator: char, rest: string, c: Cue, cs: seq<Cue>)
    requires c == CueOf(segment, number) && Readable(c) && separator != ' ' && separator != '\n'
    requires ParseBlocks(Lines(rest), separator) == Some(cs)
    ensures ParseBlocks(Lines(CueText(segment, number, separator) + "\n" + rest), separator) == Some([c] + cs)
  {
    BlankLine(rest);
    CueAhead(segment, number, separator, "\n" + rest, Lines(rest), c, cs);
    Associate(CueText(segment, number, separator), "\n", rest);
  }

  lemma CuesOfCons(segments: seq<Segment>, first: nat)
    requires segments != []
    ensures CuesOf(segments, first) == [CueOf(segments[0], first)] + CuesOf(segments[1..], first + 1)
  {
  }

  lemma PrintableTail(segments: seq<Segment>, first: nat)
    requires Printable(segments) && segments != []
    ensures Readable(CueOf(segments[0], first)) && Printable(segments[1..])
  {
    assert Readable(CueOf(segments[0], 0));
  }

  lemma CuesTextCons(segments: seq<Segment>, first: nat, separator: char)
    requires |segments| > 1
    ensures CuesText(segments, first, separator)
         == CueText(segments[0], first, separator) + "\n" + CuesText(segments[1..], first + 1, separator)
  {
  }

  lemma {:induction false} CuesRoundTrip(segments: seq<Segment>, first: nat, separator: char)
    requires Printable(segments) && segments != []
    requires separator != ' ' && separator != '\n'
    ensures ParseBlocks(Lines(CuesText(segments, first, separator)), separator) == Some(CuesOf(segments, first))
  {
    PrintableTail(segments, first);
    CuesOfCons(segments, first);
    if |segments| == 1 {
      LastCue(segments[0], first, separator, CueOf(segments[0], first));
      assert CuesOf(segments, first) == [CueOf(segments[0], first)];
    } else {
      CuesTextCons(segments, first, separator);
      CuesRoundTrip(segments[1..], first + 1, separator);
      NextCue(segments[0], first, separator, CuesText(segments[1..], first + 1, separator),
              CueOf(segments[0], first), CuesOf(segments[1..], first + 1));
    }
  }

  lemma CueListNotEmpty(segments: seq<Segment>, first: nat, separator: char)
    requires segments != []
    ensures CuesText(segments, first, separator) != ""
  {
  }

  lemma {:induction false} ParsedAreReadable(ls: seq<string>, separator: char)
    requires forall i :: 0 <= i < |ls| ==> '\n' !in ls[i]
    ensures var r := ParseBlocks(ls, separator);
            r.Some? ==> forall i :: 0 <= i < |r.value| ==> Readable(r.value[i])
  {
    if ls != [] && |ls| >= 4 {
      ParsedAreReadable(ls[4..], separator);
    }
  }

  lemma UnreadableIsLost(segments: seq<Segment>, doc: string, separator: char)
    requires !Printable(segments)
    ensures ParseBlocks(Lines(doc), separator) != Some(CuesOf(segments, 1))
  {
    LinesHaveNoNewline(doc);
    ParsedAreReadable(Lines(doc), separator);
    var i :| 0 <= i < |segments| && !Readable(CueOf(segments[i], 0));
    assert CuesOf(segments, 1)[i] == CueOf(segments[i], 1 + i);
  }

  /** Printing then parsing gives the cues back exactly when no time is negative and every text is one line. */
  lemma CueListIff(segments: seq<Segment>, separator: char)
    requires separator != ' ' && separator != '\n'
    ensures ParseCues(CuesText(segments, 1, separator), separator) == Some(CuesOf(segments, 1)) <==> Printable(segments)
  {
    if segments != [] {
      CueListNotEmpty(segments, 1, separator);
      if Printable(segments) {
        CuesRoundTrip(segments, 1, separator);
      } else {
        UnreadableIsLost(segments, CuesText(segments, 1, separator), separator);
      }
    }
  }

  lemma SrtRoundTripIff(segments: seq<Segment>)
    ensures ParseSrt(ToSrt(segments)) == Some(CuesOf(segments, 1)) <==> Printable(segments)
  {
    CueListIff(segments, ',');
  }

  lemma VttRoundTripIff(segments: seq<Segment>)
    ensures ParseVtt(ToVtt(segments)) == Some(CuesOf(segments, 1)) <==> Printable(segments)
  {
    CueListIff(segments, '.');
    assert ToVtt(segments)[8..] == CuesText(segments, 1, '.');
  }

  /* ---------- the formats, literally ---------- */

  lemma ShortDigits(n: nat)
    ensures n < 10 ==> Digits(n) == [Digit(n)]
    ensures 10 <= n < 100 ==> Digits(n) == [Digit(n / 10), Digit(n % 10)]
    ensures 100 <= n < 1000 ==> Digits(n) == [Digit(n / 100), Digit(n / 10 % 10), Digit(n % 10)]
  {
    if 10 <= n < 1000 {
      assert Digits(n) == Digits(n / 10) + [Digit(n % 10)];
      if n >= 100 {
        HundredsAreTens(n);
        assert Digits(n / 10) == Digits(n / 10 / 10) + [Digit(n / 10 % 10)];
      }
    }
  }

  lemma HundredsAreTens(n: nat)
    requires 100 <= n < 1000
    ensures n / 10 / 10 == n / 100 < 10 && n / 10 >= 10
  {
  }

  lemma FaceOf(h: string, m: string, s: string, ms: string, separator: char)
    requires |h| == 2 && |m| == 2 && |s| == 2 && |ms| == 3
    ensures h + ":" + m + ":" + s + [separator] + ms
         == [h[0], h[1], ':', m[0], m[1], ':', s[0], s[1], separator, ms[0], ms[1], ms[2]]
  {
  }

  /** The clock of a time below 100 hours, digit by digit. */
  lemma ClockFace(h: nat, m: nat, s: nat, ms: nat, separator: char)
    requires h < 100 && m < 60 && s < 60 && ms < 1000
    ensures Stamp(h, m, s, ms, separator)
         == [Digit(h / 10), Digit(h % 10), ':', Digit(m / 10), Digit(m % 10), ':', Digit(s / 10), Digit(s % 10),
             separator, Digit(ms / 100), Digit(ms / 10 % 10), Digit(ms % 10)]
  {
    TwoDigits(h);
    TwoDigits(m);
    TwoDigits(s);
    ThreeDigits(ms);
    FaceOf([Digit(h / 10), Digit(h % 10)], [Digit(m / 10), Digit(m % 10)], [Digit(s / 10), Digit(s % 10)],
           [Digit(ms / 100), Digit(ms / 10 % 10), Digit(ms % 10)], separator);
  }

  lemma PadOnce(s: string, width: nat)
    requires |s| + 1 == width
    ensures PadStart(s, width) == "0" + s
  {
  }

  lemma TwoDigits(n: nat)
    requires n < 100
    ensures PadStart(ToString(n), 2) == [Digit(n / 10), Digit(n % 10)]
  {
    ShortDigits(n);
    if n < 10 {
      PadOnce([Digit(n)], 2);
      assert "0" + [Digit(n)] == [Digit(0), Digit(n)];
    }
  }

  lemma PadTwice(s: string)
    requires |s| == 1
    ensures PadStart(s, 3) == ['0', '0', s[0]]
  {
    PadOnce("0" + s, 3);
    assert PadStart(s, 3) == PadStart("0" + s, 3);
    assert "0" + ("0" + s) == ['0', '0', s[0]];
  }

  lemma ThreeDigits(n: nat)
    requires n < 1000
    ensures PadStart(ToString(n), 3) == [Digit(n / 100), Digit(n / 10 % 10), Digit(n % 10)]
  {
    ShortDigits(n);
    if n < 10 {
      PadTwice([Digit(n)]);
    } else if n < 100 {
      PadOnce([Digit(n / 10), Digit(n % 10)], 3);
      assert "0" + [Digit(n / 10), Digit(n % 10)] == [Digit(0), Digit(n / 10), Digit(n % 10)];
    }
  }

  lemma ClockOf(x: real, h: nat, m: nat, s: nat, ms: nat, separator: char)
    requires x * 1000.0 == (((h * 60 + m) * 60 + s) * 1000 + ms) as real && m < 60 && s < 60 && ms < 1000
    ensures FormatTimestamp(x, separator) == Stamp(h, m, s, ms, separator)
  {
    var t := ((h * 60 + m) * 60 + s) * 1000 + ms;
    assert Millis(x) == t;
    assert t / 1000 == (h * 60 + m) * 60 + s && t % 1000 == ms;
    assert t / 1000 / 60 == h * 60 + m && t / 1000 % 60 == s;
    HoursAreSixtySixties(t / 1000);
    assert t / 1000 / 3600 == h && t / 1000 / 60 % 60 == m;
  }

  lemma ZeroClock()
    ensures FormatTimestamp(0.0, ',') == "00:00:00,000" && FormatTimestamp(0.0, '.') == "00:00:00.000"
  {
    ClockOf(0.0, 0, 0, 0, 0, ',');
    ClockFace(0, 0, 0, 0, ',');
    ClockOf(0.0, 0, 0, 0, 0, '.');
    ClockFace(0, 0, 0, 0, '.');
  }

  lemma SecondsClock()
    ensures FormatTimestamp(4.9, ',') == "00:00:04,900" && FormatTimestamp(4.9, '.') == "00:00:04.900"
  {
    ClockOf(4.9, 0, 0, 4, 900, ',');
    ClockFace(0, 0, 4, 900, ',');
    ClockOf(4.9, 0, 0, 4, 900, '.');
    ClockFace(0, 0, 4, 900, '.');
  }

  lemma HoursClock()
    ensures FormatTimestamp(36000.001, ',') == "10:00:00,001" && FormatTimestamp(36000.001, '.') == "10:00:00.001"
  {
    ClockOf(36000.001, 10, 0, 0, 1, ',');
    ClockFace(10, 0, 0, 1, ',');
    ClockOf(36000.001, 10, 0, 0, 1, '.');
    ClockFace(10, 0, 0, 1, '.');
  }

  const HELLO := Segment(0, 0.0, 4.9, "Hello and welcome.")
  const LATER := Segment(1, 4.9, 36000.001, "Second segment.")

  lemma SampleCues()
    ensures CueText(HELLO, 1, ',')
         == "1" + "\n" + ("00:00:00,000" + " --> " + "00:00:04,900") + "\n" + "Hello and welcome." + "\n"
    ensures CueText(LATER, 2, ',')
         == "2" + "\n" + ("00:00:04,900" + " --> " + "10:00:00,001") + "\n" + "Second segment." + "\n"
    ensures CueText(HELLO, 1, '.')
         == "1" + "\n" + ("00:00:00.000" + " --> " + "00:00:04.900") + "\n" + "Hello and welcome." + "\n"
    ensures CueText(LATER, 2, '.')
         == "2" + "\n" + ("00:00:04.900" + " --> " + "10:00:00.001") + "\n" + "Second segment." + "\n"
  {
    ZeroClock();
    SecondsClock();
    HoursClock();
    ShortDigits(1);
    ShortDigits(2);
  }

  /** Two cues, literally: SRT has commas and no header, WebVTT has its header and full stops. */
  lemma SampleDocuments()
    ensures ToSrt([HELLO, LATER])
         == "1" + "\n" + ("00:00:00,000" + " --> " + "00:00:04,900") + "\n" + "Hello and welcome." + "\n"
            + "\n"
            + ("2" + "\n" + ("00:00:04,900" + " --> " + "10:00:00,001") + "\n" + "Second segment." + "\n")
    ensures ToVtt([HELLO, LATER])
         == "WEBVTT\n\n"
            + ("1" + "\n" + ("00:00:00.000" + " --> " + "00:00:04.900") + "\n" + "Hello and welcome." + "\n"
               + "\n"
               + ("2" + "\n" + ("00:00:04.900" + " --> " + "10:00:00.001") + "\n" + "Second segment." + "\n"))
  {
    SampleCues();
    TwoCues(HELLO, LATER, ',');
    TwoCues(HELLO, LATER, '.');
  }

  /* ---------- texts with line breaks ---------- */

  /** A segment whose text goes on as the second of two cues. */
  function Swallowing(x: Segment, y: Segment, separator: char): Segment {
    x.(text := x.text + "\n\n" + (ToString(2) + "\n" + TimesLine(y, separator)) + "\n" + y.text)
  }

  lemma FiveParts(a: string, b: string, c: string, d: string, e: string)
    ensures a + "\n" + b + "\n" + (c + "\n\n" + d + "\n" + e) + "\n"
         == a + "\n" + b + "\n" + c + "\n" + "\n" + (d + "\n" + e + "\n")
  {
  }

  lemma TwoCues(x: Segment, y: Segment, separator: char)
    ensures CuesText([x, y], 1, separator) == CueText(x, 1, separator) + "\n" + CueText(y, 2, separator)
  {
    assert [x, y][1..] == [y];
  }

  lemma SwallowingPrintsBoth(x: Segment, y: Segment, separator: char)
    ensures CuesText([Swallowing(x, y, separator)], 1, separator) == CuesText([x, y], 1, separator)
  {
    TwoCues(x, y, separator);
    FiveParts(ToString(1), TimesLine(x, separator), x.text, ToString(2) + "\n" + TimesLine(y, separator), y.text);
  }

  /**
    * Without reference to any reader: with line breaks in a text the printers are not
    * injective.  Any two cues are also the document of one segment.
    */
  lemma LineBreaksCollide(x: Segment, y: Segment)
    ensures ToSrt([Swallowing(x, y, ',')]) == ToSrt([x, y])
    ensures ToVtt([Swallowing(x, y, '.')]) == ToVtt([x, y])
    ensures '\n' in Swallowing(x, y, ',').text && '\n' in Swallowing(x, y, '.').text
  {
    SwallowingPrintsBoth(x, y, ',');
    SwallowingPrintsBoth(x, y, '.');
    HasLineBreak(x, y, ',');
    HasLineBreak(x, y, '.');
  }

  lemma HasLineBreak(x: Segment, y: Segment, separator: char)
    ensures '\n' in Swallowing(x, y, separator).text
  {
    assert Swallowing(x, y, separator).text[|x.text|] == '\n';
  }
}
