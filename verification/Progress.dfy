/** The throttled progress reporter of worker/main.py. */
module Progress {
  import opened Rounding

  const PROGRESS_REPORT_STEP := 0.1

  /** What the reporter has seen last and the values it has issued as database writes. */
  datatype Gauge = Gauge(last: real, issued: seq<real>)

  const START := Gauge(0.0, [])

  function Heard(g: Gauge, fraction: real): Gauge {
    if fraction - g.last >= PROGRESS_REPORT_STEP then Gauge(fraction, g.issued + [Round2(fraction)]) else g
  }

  function HeardAll(g: Gauge, fractions: seq<real>): Gauge {
    if fractions == [] then g
    else Heard(HeardAll(g, fractions[..|fractions| - 1]), fractions[|fractions| - 1])
  }

  lemma {:induction false} HeardAllConcat(g: Gauge, a: seq<real>, b: seq<real>)
    ensures HeardAll(g, a + b) == HeardAll(HeardAll(g, a), b)
    decreases |b|
  {
    if b == [] {
      assert a + b == a;
    } else {
      HeardAllConcat(g, a, b[..|b| - 1]);
      assert (a + b)[..|a + b| - 1] == a + b[..|b| - 1];
    }
  }

  /** The closure `report`, with its nonlocal variable as a field. */
  class Reporter {
    var last: real
    var issued: seq<real>

    constructor ()
      ensures Value() == START
    {
      last, issued := 0.0, [];
    }

    function Value(): Gauge
      reads this
    {
      Gauge(last, issued)
    }

    method Report(fraction: real)
      modifies this
      ensures Value() == Heard(old(Value()), fraction)
      ensures fraction - old(last) >= PROGRESS_REPORT_STEP ==>
                last == fraction && |issued| == |old(issued)| + 1 && Writes(issued[|old(issued)|], fraction)
      ensures fraction - old(last) < PROGRESS_REPORT_STEP ==> last == old(last) && issued == old(issued)
      ensures fraction - last < PROGRESS_REPORT_STEP
      ensures old(issued) <= issued && |issued| <= |old(issued)| + 1
    {
      if fraction - last >= PROGRESS_REPORT_STEP {
        Round2Writes(fraction);
        last := fraction;
        issued := issued + [Round2(fraction)];
      }
    }
  }

  predicate StrictlyIncreasing(xs: seq<real>) {
    forall i, k :: 0 <= i < k < |xs| ==> xs[i] < xs[k]
  }

  /** What holds between calls: each write moved `last` by a tenth, far enough apart to survive rounding. */
  predicate Sound(g: Gauge) {
    && 0.0 <= g.last <= 1.0
    && |g.issued| as real * PROGRESS_REPORT_STEP <= g.last
    && StrictlyIncreasing(g.issued)
    && (forall i :: 0 <= i < |g.issued| ==> 0.0 < g.issued[i] <= Round2(g.last))
  }

  lemma HeardSound(g: Gauge, fraction: real)
    requires Sound(g) && fraction <= 1.0
    ensures Sound(Heard(g, fraction)) && fraction - Heard(g, fraction).last < PROGRESS_REPORT_STEP
  {
    if fraction - g.last >= PROGRESS_REPORT_STEP {
      Round2Strict(g.last, fraction);
    }
  }

  lemma {:induction false} HeardAllSound(fractions: seq<real>)
    requires forall i :: 0 <= i < |fractions| ==> fractions[i] <= 1.0
    ensures Sound(HeardAll(START, fractions))
  {
    if fractions != [] {
      HeardAllSound(fractions[..|fractions| - 1]);
      HeardSound(HeardAll(START, fractions[..|fractions| - 1]), fractions[|fractions| - 1]);
    }
  }

  /**
    * For any sequence of fractions up to 1, in any order: at most ten writes, strictly
    * increasing even after rounding, all in (0, 1], and after every call the last
    * reported value trails the current fraction by less than a tenth.
    */
  lemma ThrottleSound(fractions: seq<real>)
    requires forall i :: 0 <= i < |fractions| ==> fractions[i] <= 1.0
    ensures var g := HeardAll(START, fractions);
            && |g.issued| <= 10
            && StrictlyIncreasing(g.issued)
            && (forall i :: 0 <= i < |g.issued| ==> 0.0 < g.issued[i] <= 1.0)
            && (fractions != [] ==> fractions[|fractions| - 1] - g.last < PROGRESS_REPORT_STEP)
  {
    var g := HeardAll(START, fractions);
    HeardAllSound(fractions);
    Round2Monotone(g.last, 1.0);
    Round2One();
    if fractions != [] {
      HeardAllSound(fractions[..|fractions| - 1]);
      HeardSound(HeardAll(START, fractions[..|fractions| - 1]), fractions[|fractions| - 1]);
    }
  }

  /** A value with two decimals. */
  predicate IsHundredth(v: real) {
    v * 100.0 == (v * 100.0).Floor as real
  }

  /** The written value is the call's fraction to two decimals. */
  predicate Writes(v: real, fraction: real) {
    IsHundredth(v) && fraction - 0.005 <= v <= fraction + 0.005
  }

  lemma Round2Writes(fraction: real)
    ensures Writes(Round2(fraction), fraction)
  {
    var k := RoundHalfEven(fraction * 100.0);
    assert Round2(fraction) * 100.0 == k as real;
  }

  /** Every write is the rounded fraction of some call, and the mark is the fraction of the last write. */
  lemma {:induction false} IssuedAreCalls(fractions: seq<real>)
    ensures var g := HeardAll(START, fractions);
            && (forall i :: 0 <= i < |g.issued| ==>
                  exists c :: 0 <= c < |fractions| && Writes(g.issued[i], fractions[c]))
            && (if g.issued == [] then g.last == 0.0 else Writes(g.issued[|g.issued| - 1], g.last))
  {
    if fractions != [] {
      var n := |fractions| - 1;
      var before, g := HeardAll(START, fractions[..n]), HeardAll(START, fractions);
      IssuedAreCalls(fractions[..n]);
      Round2Writes(fractions[n]);
      forall i | 0 <= i < |g.issued| ensures exists c :: 0 <= c < |fractions| && Writes(g.issued[i], fractions[c]) {
        if i < |before.issued| {
          var c :| 0 <= c < n && Writes(before.issued[i], fractions[..n][c]);
          assert Writes(g.issued[i], fractions[c]);
        } else {
          assert Writes(g.issued[i], fractions[n]);
        }
      }
    }
  }

  /** Ten writes do happen: the bound is tight. */
  lemma TenWrites()
    ensures |HeardAll(START, [0.1, 0.2, 0.3, 0.4, 0.5, 0.6, 0.7, 0.8, 0.9, 1.0]).issued| == 10
  {
    var fs := [0.1, 0.2, 0.3, 0.4, 0.5, 0.6, 0.7, 0.8, 0.9, 1.0];
    ghost var g := START;
    var i := 0;
    while i < 10
      invariant 0 <= i <= 10 && g == HeardAll(START, fs[..i]) && |g.issued| == i && g.last == i as real / 10.0
    {
      assert fs[..i + 1][..i] == fs[..i] && fs[i] == (i + 1) as real / 10.0;
      g := Heard(g, fs[i]);
      i := i + 1;
    }
    assert fs[..10] == fs;
  }
}
