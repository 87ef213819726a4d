/**
 * The worked cases of the flicker detector: the nine-sample window searched
 * whole and over sub-ranges, and a three-sample detector fed a rising and
 * falling signal.
 */
module FlickerCases {
  import opened Wrappers
  import opened Ieee
  import opened Status
  import opened Enforcement
  import opened Flicker

  /** The nine samples of the search test. */
  const Sample: seq<real> := [-1.5, 1.0, -2.0, -3.0, -1.0, -5.0, 0.0, 1.0, 2.0]

  /** Every sample lies in [-5, 2]; only the last exceeds 1, and only the sixth is below -4. */
  lemma SampleRange()
    ensures forall i :: 0 <= i < |Sample| ==> -5.0 <= Sample[i] <= 2.0
    ensures forall i :: 0 <= i < |Sample| && Sample[i] > 1.0 ==> i == 8
    ensures forall i :: 0 <= i < |Sample| && Sample[i] < -4.0 ==> i == 5
  {
    forall i | 0 <= i < |Sample|
      ensures -5.0 <= Sample[i] <= 2.0 && (Sample[i] > 1.0 ==> i == 8) && (Sample[i] < -4.0 ==> i == 5)
    {
      assert i == 0 || i == 1 || i == 2 || i == 3 || i == 4 || i == 5 || i == 6 || i == 7 || i == 8;
    }
  }

  /**
   * The whole-window search over the sample reaches magnitude 6: the valley
   * of -5 between 1 and 2. No triple does better, because a magnitude above 6
   * would need a gap above 6 on both sides of the middle value.
   */
  lemma SampleWholeWindow()
    ensures GetPeakMagnitude(Sample, GreatestMagnitudePeak(Sample)) == 6.0
  {
    SampleRange();
    forall i: nat, j: nat, k: nat | i < j < k < |Sample|
      ensures MagnitudeAt(Sample, i, j, k) <= 6.0
    {
      var a, b, c := Sample[i], Sample[j], Sample[k];
      assert b - a > 6.0 ==> b > 1.0;
      assert a - b > 6.0 ==> a > 1.0;
    }
    assert MagnitudeAt(Sample, 1, 5, 8) == 6.0;
    GreatestIsMaximum(Sample, 6.0);
  }

  /** The range search over the whole sample, [0, 9), reaches 3.5: the valley of -5 between -1.5 and 2. */
  lemma SampleRangeWhole()
    ensures GetPeakMagnitude(Sample, GreatestMagnitudePeakIn(Sample, 0, 9)) == 3.5
  {
    SampleRange();
    forall j | 0 < j < 8
      ensures MagnitudeAt(Sample, 0, j, 8) <= 3.5
    {
      var b := Sample[j];
      assert -5.0 <= b <= 2.0;
    }
    assert MagnitudeAt(Sample, 0, 5, 8) == 3.5;
    RangeIsMaximum(Sample, 0, 8, 3.5);
  }

  /** The range search over [0, 3) has one triple: the peak -1.5, 1, -2 of magnitude 2.5. */
  lemma SampleRangeFront()
    ensures GetPeakMagnitude(Sample, GreatestMagnitudePeakIn(Sample, 0, 3)) == 2.5
  {
    var r := GreatestMagnitudePeakIn(Sample, 0, 3);
    assert r == PeakIndex(0, 1, 2);
  }

  /** The range search over [6, 9) sees the rising 0, 1, 2, which is neither a peak nor a valley. */
  lemma SampleRangeBack()
    ensures GetPeakMagnitude(Sample, GreatestMagnitudePeakIn(Sample, 6, 9)) == 0.0
  {
    var r := GreatestMagnitudePeakIn(Sample, 6, 9);
    assert r == PeakIndex(6, 7, 8);
  }

  /**
   * The verdicts of a three-sample detector with the given limit whose last
   * two samples are `b, c`, computed triple by triple on the raw samples.
   */
  function ThreeSampleVerdicts(limit: real, b: real, c: real, vs: seq<real>): (r: seq<bool>)
    ensures |r| == |vs|
    decreases |vs|
  {
    if vs == [] then []
    else [TripleMagnitude(b, c, vs[0]) < limit] + ThreeSampleVerdicts(limit, c, vs[0], vs[1..])
  }

  /** With a window of three, each push is judged by the one triple the window then holds. */
  lemma {:induction false} ThreeSampleDetector(level: BuildLevel, show: Float -> string, f: ScalarFlicker, vs: seq<real>)
    requires |f.window| == 3
    ensures NoFlickerAll(level, show, f, vs) == ThreeSampleVerdicts(f.limit, f.window[1], f.window[2], vs)
    decreases |vs|
  {
    if vs != [] {
      var w := RotateLeftAndSetBack(f.window, vs[0]);
      assert w == [f.window[1], f.window[2], vs[0]];
      forall i: nat, j: nat, k: nat | i < j < k < |w|
        ensures MagnitudeAt(w, i, j, k) == TripleMagnitude(w[0], w[1], w[2])
      {
      }
      ThreeSampleDetector(level, show, f.(window := w), vs[1..]);
    }
  }

  /** `ScalarFlicker<real, 3> sf(0.5)` in a checking build: a detector over three zero samples. */
  lemma DefaultDetector(site: CallSite, show: Float -> string)
    ensures MakeDefaultScalarFlicker(Config(Default, ContinuationOn), site, show, 3, 0.5)
         == Success(ScalarFlicker(0.5, "[Flicker]: ", [0.0, 0.0, 0.0]))
  {
    var f0 := MakeDefaultScalarFlicker(Config(Default, ContinuationOn), site, show, 3, 0.5).value;
    assert f0.window == [0.0, 0.0, 0.0];
  }

  /**
   * The verdict on the n-th sample judges the triple ending at it, read from
   * the two earlier samples followed by the stream.
   */
  lemma {:induction false} VerdictAt(limit: real, b: real, c: real, vs: seq<real>, n: nat)
    requires n < |vs|
    ensures ThreeSampleVerdicts(limit, b, c, vs)[n]
        <==> TripleMagnitude(([b, c] + vs)[n], ([b, c] + vs)[n + 1], ([b, c] + vs)[n + 2]) < limit
    decreases n
  {
    if n > 0 {
      VerdictAt(limit, c, vs[0], vs[1..], n - 1);
      assert [c, vs[0]] + vs[1..] == ([b, c] + vs)[1..];
    }
  }

  /** The n-th verdict, once the triple it judges and that triple's magnitude are known. */
  lemma VerdictIs(limit: real, b: real, c: real, vs: seq<real>, n: nat, x: real, y: real, z: real, m: real)
    requires n < |vs|
    requires ([b, c] + vs)[n] == x && ([b, c] + vs)[n + 1] == y && ([b, c] + vs)[n + 2] == z
    requires TripleMagnitude(x, y, z) == m
    ensures ThreeSampleVerdicts(limit, b, c, vs)[n] <==> m < limit
  {
    VerdictAt(limit, b, c, vs, n);
  }

  /** The raw-sample verdicts of the stream 0, 1, 2, 1, 0, -1, 0 with limit 0.5 after two zeros. */
  lemma StreamVerdicts(vs: seq<real>)
    requires vs == [0.0, 1.0, 2.0, 1.0, 0.0, -1.0, 0.0]
    ensures ThreeSampleVerdicts(0.5, 0.0, 0.0, vs) == [true, true, true, false, true, true, false]
  {
    var r := ThreeSampleVerdicts(0.5, 0.0, 0.0, vs);
    assert r[0] by { VerdictIs(0.5, 0.0, 0.0, vs, 0, 0.0, 0.0, 0.0, 0.0); }
    assert r[1] by { VerdictIs(0.5, 0.0, 0.0, vs, 1, 0.0, 0.0, 1.0, 0.0); }
    assert r[2] by { VerdictIs(0.5, 0.0, 0.0, vs, 2, 0.0, 1.0, 2.0, 0.0); }
    assert !r[3] by { VerdictIs(0.5, 0.0, 0.0, vs, 3, 1.0, 2.0, 1.0, 1.0); }
    assert r[4] by { VerdictIs(0.5, 0.0, 0.0, vs, 4, 2.0, 1.0, 0.0, 0.0); }
    assert r[5] by { VerdictIs(0.5, 0.0, 0.0, vs, 5, 1.0, 0.0, -1.0, 0.0); }
    assert !r[6] by { VerdictIs(0.5, 0.0, 0.0, vs, 6, 0.0, -1.0, 0.0, 1.0); }
  }

  /**
   * A detector with limit 0.5 over three samples, fed 0, 1, 2, 1, 0, -1, 0,
   * reports flicker exactly on the fourth push (the peak 1, 2, 1) and the
   * seventh (the valley 0, -1, 0).
   */
  lemma RisingAndFalling(level: BuildLevel, show: Float -> string, f: ScalarFlicker, vs: seq<real>)
    requires f == ScalarFlicker(0.5, "[Flicker]: ", [0.0, 0.0, 0.0])
    requires vs == [0.0, 1.0, 2.0, 1.0, 0.0, -1.0, 0.0]
    ensures NoFlickerAll(level, show, f, vs) == [true, true, true, false, true, true, false]
  {
    StreamVerdicts(vs);
    ThreeSampleDetector(level, show, f, vs);
  }
}
