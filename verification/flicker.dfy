/**
 * The sliding-window flicker detector of `scalar_flicker.hpp`. A window of
 * the last `S` samples (`S >= 3`) is searched for the triple of positions
 * `p1 < p2 < p3` whose middle value stands out most from the nearer of the two
 * outer values, as a peak above them or a valley below them; the detector
 * reports flicker when that magnitude reaches the limit.
 *
 * Samples are exact reals. Indices are unbounded naturals: every index the
 * searches build is below the window size, so `size_t` never wraps there.
 */
module Flicker {
  import opened Wrappers
  import opened Ieee
  import opened Status
  import opened Text
  import opened Violation
  import opened Enforcement

  /** `PeakIndex<T, S>`: three positions into the window. */
  datatype PeakIndex = PeakIndex(p1: nat, p2: nat, p3: nat)

  /** `PeakIndex::indices_are_valid` */
  predicate Ordered(p: PeakIndex)
    ensures Ordered(p) ==> p.p1 + 2 <= p.p3
  {
    p.p1 < p.p2 && p.p2 < p.p3
  }

  /** The audit comment of the ordering check. */
  function OrderComment(p1: nat, p2: nat, p3: nat): string {
    "Input indices must be ordered with p1_idx (" + NatToString(p1) + ") < p2_idx (" + NatToString(p2)
    + ") < p3_idx (" + NatToString(p3) + ")"
  }

  /**
   * `PeakIndex(p1, p2, p3)`: the ordering is enforced at the default tier;
   * there is no upper bound on the indices here.
   */
  function MakePeakIndex(cfg: Config, site: CallSite, p1: nat, p2: nat, p3: nat)
    : (r: Result<PeakIndex, ContractViolation>)
    ensures r.Success? <==> cfg.level == Off || (p1 < p2 && p2 < p3)
    ensures r.Success? ==> r.value == PeakIndex(p1, p2, p3)
    ensures r.Failure? ==> r.error.comment == (if cfg.level == Audit then OrderComment(p1, p2, p3) else "")
  {
    Construct(cfg, site, DefaultTier,
              ReturnStatus(ContractComment(cfg.level, "", OrderComment(p1, p2, p3)), Ordered(PeakIndex(p1, p2, p3))),
              PeakIndex(p1, p2, p3))
  }

  /** The expectations of the ordering test. */
  lemma PeakIndexTestCases(site: CallSite)
    ensures MakePeakIndex(Config(Default, ContinuationOn), site, 0, 0, 1).Failure?
    ensures MakePeakIndex(Config(Default, ContinuationOn), site, 3, 5, 5).Failure?
    ensures MakePeakIndex(Config(Default, ContinuationOn), site, 3, 2, 1).Failure?
    ensures MakePeakIndex(Config(Default, ContinuationOn), site, 2, 2, 2).Failure?
    ensures MakePeakIndex(Config(Default, ContinuationOn), site, 0, 1, 2).Success?
    ensures MakePeakIndex(Config(Default, ContinuationOn), site, 0, 1, 20).Success?
    ensures MakePeakIndex(Config(Default, ContinuationOn), site, 3, 5, 17).Success?
    ensures !IsValidForArray([0.0, 1.0, 0.0], PeakIndex(0, 1, 5))
    ensures IsValidForArray([0.0, 1.0, 0.0], PeakIndex(0, 1, 2))
  {
  }

  /** `PeakIndex::string`: `[p1, p2, p3]` */
  function PeakString(p: PeakIndex): (s: string)
    ensures |s| >= 9
    ensures s[0] == '[' && s[|s| - 1] == ']'
  {
    "[" + NatToString(p.p1) + ", " + NatToString(p.p2) + ", " + NatToString(p.p3) + "]"
  }

  /** Reads one decimal number, if `s` is exactly that. */
  function ReadNat(s: string): Option<nat> {
    if s != [] && AllDigits(s) then Some(ParseNat(s)) else None
  }

  /** Reads a `[p1, p2, p3]` rendering back. */
  function ParsePeakString(s: string): Option<PeakIndex> {
    var s1 :- Expect("[", s);
    var (a, s2) := SplitAt(',', s1);
    var s3 :- Expect(", ", s2);
    var (b, s4) := SplitAt(',', s3);
    var s5 :- Expect(", ", s4);
    var (c, s6) := SplitAt(']', s5);
    var tail :- Expect("]", s6);
    var p1 :- ReadNat(a);
    var p2 :- ReadNat(b);
    var p3 :- ReadNat(c);
    if tail == [] then Some(PeakIndex(p1, p2, p3)) else None
  }

  /** A number's digits hold no separator and read back as the number. */
  lemma DigitsReadBack(n: nat, stop: char)
    requires !IsDigit(stop)
    ensures stop !in NatToString(n)
    ensures ReadNat(NatToString(n)) == Some(n)
  {
    ParseNatToString(n);
  }

  /** Reading the rendering of a peak index gives the peak index back. */
  lemma PeakStringRoundTrip(p: PeakIndex)
    ensures ParsePeakString(PeakString(p)) == Some(p)
  {
    var a, b, c := NatToString(p.p1), NatToString(p.p2), NatToString(p.p3);
    DigitsReadBack(p.p1, ',');
    DigitsReadBack(p.p2, ',');
    DigitsReadBack(p.p3, ']');
    var t3 := c + "]";
    var t2 := b + (", " + t3);
    var t1 := a + (", " + t2);
    assert PeakString(p) == "[" + t1;
    ExpectPrefix("[", t1);
    SplitAtStops(',', a, ", " + t2);
    ExpectPrefix(", ", t2);
    SplitAtStops(',', b, ", " + t3);
    ExpectPrefix(", ", t3);
    SplitAtStops(']', c, "]");
    ExpectPrefix("]", []);
    assert "]" + [] == "]";
  }

  /** `PeakIndex::is_valid_for_array` */
  predicate IsValidForArray(arr: seq<real>, p: PeakIndex)
    ensures Ordered(p) ==> (IsValidForArray(arr, p) <==> p.p3 < |arr|)
  {
    p.p1 < |arr| && p.p2 < |arr| && p.p3 < |arr|
  }

  /** `is_peak`: the middle value above both neighbours, strictly. */
  predicate IsPeak(a: real, b: real, c: real)
    ensures IsPeak(a, b, c) ==> b != a && b != c
  {
    a < b && c < b
  }

  /** `is_valley`: the middle value below both neighbours, strictly. */
  predicate IsValley(a: real, b: real, c: real)
    ensures IsValley(a, b, c) <==> IsPeak(-a, -b, -c)
  {
    a > b && c > b
  }

  function Max(a: real, b: real): real {
    if a < b then b else a
  }

  function Min(a: real, b: real): real {
    if b < a then b else a
  }

  /** `peak_mag` */
  function PeakMag(a: real, b: real, c: real): (m: real)
    ensures m <= b - a && m <= b - c
    ensures m > 0.0 <==> IsPeak(a, b, c)
  {
    b - Max(a, c)
  }

  /** `valley_mag` */
  function ValleyMag(a: real, b: real, c: real): (m: real)
    ensures m <= a - b && m <= c - b
    ensures m > 0.0 <==> IsValley(a, b, c)
  {
    Min(a, c) - b
  }

  /** The body of `get_peak_magnitude` on the three values. */
  function TripleMagnitude(a: real, b: real, c: real): (m: real)
    ensures m >= 0.0
    ensures m > 0.0 <==> IsPeak(a, b, c) || IsValley(a, b, c)
  {
    if IsPeak(a, b, c) then PeakMag(a, b, c)
    else if IsValley(a, b, c) then ValleyMag(a, b, c)
    else 0.0
  }

  /**
   * No triple is both a peak and a valley, a flat triple is neither, and the
   * magnitude is the distance from the middle value to the nearer outer
   * value, counted only when the middle value is beyond both.
   */
  lemma MagnitudeIsNearerDistance(a: real, b: real, c: real)
    ensures !(IsPeak(a, b, c) && IsValley(a, b, c))
    ensures a == b || b == c ==> !IsPeak(a, b, c) && !IsValley(a, b, c)
    ensures TripleMagnitude(a, b, c) == Max(0.0, Max(Min(b - a, b - c), Min(a - b, c - b)))
    ensures TripleMagnitude(a, b, c) == TripleMagnitude(c, b, a)
    ensures TripleMagnitude(a, b, c) == TripleMagnitude(-a, -b, -c)
  {
  }

  /** The expectations of the peak, valley and magnitude tests. */
  lemma PeakValleyTestCases()
    ensures IsPeak(0.0, 1.0, 0.0) && IsPeak(0.0, 3.0, 2.0) && IsPeak(1.0, 3.0, -1.0)
    ensures !IsPeak(0.0, 0.0, 0.0) && !IsPeak(0.0, -1.0, 0.0) && !IsPeak(1.0, -1.0, 0.0) && !IsPeak(0.0, -1.0, 1.0)
    ensures !IsValley(0.0, 1.0, 0.0) && !IsValley(0.0, 3.0, 2.0) && !IsValley(1.0, 3.0, -1.0) && !IsValley(0.0, 0.0, 0.0)
    ensures IsValley(0.0, -1.0, 0.0) && IsValley(1.0, -1.0, 0.0) && IsValley(0.0, -1.0, 1.0)
    ensures PeakMag(1.0, 3.0, 0.0) == 2.0 && PeakMag(0.0, 3.0, 1.0) == 2.0
    ensures PeakMag(-3.0, 3.0, 1.0) == 2.0 && PeakMag(-3.0, 3.0, -5.0) == 6.0
    ensures ValleyMag(3.0, -3.0, 5.0) == 6.0 && ValleyMag(0.0, -3.0, 5.0) == 3.0
    ensures ValleyMag(5.0, -3.0, 0.0) == 3.0 && ValleyMag(0.0, -3.0, 0.0) == 3.0
  {
  }

  /** `get_peak_magnitude(arr, peak)` */
  function GetPeakMagnitude(arr: seq<real>, p: PeakIndex): (m: real)
    requires IsValidForArray(arr, p)
    ensures m >= 0.0
    ensures m > 0.0 <==> IsPeak(arr[p.p1], arr[p.p2], arr[p.p3]) || IsValley(arr[p.p1], arr[p.p2], arr[p.p3])
  {
    TripleMagnitude(arr[p.p1], arr[p.p2], arr[p.p3])
  }

  /** The magnitude of the triple at positions `i < j < k`. */
  function MagnitudeAt(arr: seq<real>, i: nat, j: nat, k: nat): real
    requires i < j < k < |arr|
  {
    GetPeakMagnitude(arr, PeakIndex(i, j, k))
  }

  /** `rotate_left_and_set_back(arr, val)` on a non-empty window. */
  function RotateLeftAndSetBack(w: seq<real>, v: real): (r: seq<real>)
    requires |w| > 0
    ensures |r| == |w|
    ensures forall i :: 0 <= i < |w| - 1 ==> r[i] == w[i + 1]
    ensures r[|w| - 1] == v
  {
    w[1..] + [v]
  }

  /** Pushes the samples `vs` into the window one after another. */
  function PushAll(w: seq<real>, vs: seq<real>): (r: seq<real>)
    requires |w| > 0
    ensures |r| == |w|
    decreases |vs|
  {
    if vs == [] then w else PushAll(RotateLeftAndSetBack(w, vs[0]), vs[1..])
  }

  /** Dropping the oldest sample and appending the first new one leaves the same tail. */
  lemma ShiftedTail(w: seq<real>, vs: seq<real>)
    requires |w| > 0 && |vs| > 0
    ensures (w + vs)[|vs|..] == ((w[1..] + [vs[0]]) + vs[1..])[|vs| - 1..]
  {
    assert (w[1..] + [vs[0]]) + vs[1..] == (w + vs)[1..];
  }

  /**
   * After any pushes the window holds the last `|w|` values of the old window
   * followed by the pushed samples; once at least `|w|` samples have been
   * pushed, it holds exactly the latest ones.
   */
  lemma {:induction false} WindowKeepsLatestSamples(w: seq<real>, vs: seq<real>)
    requires |w| > 0
    ensures PushAll(w, vs) == (w + vs)[|vs|..]
    ensures |vs| >= |w| ==> PushAll(w, vs) == vs[|vs| - |w|..]
    decreases |vs|
  {
    if vs != [] {
      var w' := RotateLeftAndSetBack(w, vs[0]);
      assert w' == w[1..] + [vs[0]];
      assert PushAll(w, vs) == PushAll(w', vs[1..]);
      WindowKeepsLatestSamples(w', vs[1..]);
      ShiftedTail(w, vs);
    }
    if |vs| >= |w| {
      assert (w + vs)[|vs|..] == vs[|vs| - |w|..];
    }
  }

  /** The best triple found so far and its magnitude. */
  datatype Best = Best(mag: real, peak: PeakIndex)

  /**
   * The loop of the range search: tries every middle `p2` from the current one
   * up to `p3 - 1`, replacing the best only on a strictly greater magnitude.
   */
  function ScanMiddles(arr: seq<real>, p1: nat, p3: nat, p2: nat, best: Best): (r: Best)
    requires p1 + 1 < p3 < |arr|
    requires p1 < p2 <= p3
    requires best.peak.p1 == p1 && best.peak.p3 == p3 && p1 < best.peak.p2 <= p2 && best.peak.p2 < p3
    requires best.mag >= 0.0
    requires p2 == p1 + 1 ==> best.mag == 0.0
    requires p2 > p1 + 1 ==> best.mag == MagnitudeAt(arr, p1, best.peak.p2, p3)
    requires best.mag == 0.0 ==> best.peak.p2 == p1 + 1
    requires forall j :: p1 < j < p2 ==> MagnitudeAt(arr, p1, j, p3) <= best.mag
    requires forall j :: p1 < j < best.peak.p2 ==> MagnitudeAt(arr, p1, j, p3) < best.mag
    ensures r.peak.p1 == p1 && r.peak.p3 == p3 && p1 < r.peak.p2 < p3
    ensures r.mag == MagnitudeAt(arr, p1, r.peak.p2, p3)
    ensures forall j :: p1 < j < p3 ==> MagnitudeAt(arr, p1, j, p3) <= r.mag
    ensures forall j :: p1 < j < r.peak.p2 ==> MagnitudeAt(arr, p1, j, p3) < r.mag
    ensures r.mag == 0.0 ==> r.peak.p2 == p1 + 1
    decreases p3 - p2
  {
    if p2 == p3 then best
    else
      var m := MagnitudeAt(arr, p1, p2, p3);
      ScanMiddles(arr, p1, p3, p2 + 1, if m > best.mag then Best(m, PeakIndex(p1, p2, p3)) else best)
  }

  /**
   * `greatest_magnitude_peak(arr, begin, end)`: among the triples
   * `(begin, j, end - 1)`, the first one of greatest magnitude, or
   * `(begin, begin + 1, end - 1)` when none has a positive magnitude.
   */
  function GreatestMagnitudePeakIn(arr: seq<real>, begin: nat, end: nat): (r: PeakIndex)
    requires begin + 3 <= end <= |arr|
    ensures r.p1 == begin && r.p3 == end - 1 && begin < r.p2 < end - 1
    ensures forall j :: begin < j < r.p3 ==> MagnitudeAt(arr, begin, j, r.p3) <= GetPeakMagnitude(arr, r)
    ensures forall j :: begin < j < r.p2 ==> MagnitudeAt(arr, begin, j, r.p3) < GetPeakMagnitude(arr, r)
    ensures GetPeakMagnitude(arr, r) == 0.0 ==> r.p2 == begin + 1
  {
    ScanMiddles(arr, begin, end - 1, begin + 1, Best(0.0, PeakIndex(begin, begin + 1, end - 1))).peak
  }

  /**
   * The magnitude found by the range search over `[begin, last + 1)` is the
   * largest among its middle indices.
   */
  lemma RangeIsMaximum(arr: seq<real>, begin: nat, last: nat, m: real)
    requires begin + 2 <= last < |arr|
    requires exists j :: begin < j < last && MagnitudeAt(arr, begin, j, last) == m
    requires forall j :: begin < j < last ==> MagnitudeAt(arr, begin, j, last) <= m
    ensures GetPeakMagnitude(arr, GreatestMagnitudePeakIn(arr, begin, last + 1)) == m
  {
    var r := GreatestMagnitudePeakIn(arr, begin, last + 1);
    assert GetPeakMagnitude(arr, r) == MagnitudeAt(arr, begin, r.p2, last);
  }

  /**
   * Without the precondition the search starts from `(begin, begin + 1, end - 1)`,
   * which a checking build rejects for a range shorter than three.
   */
  lemma ShortRangeRejected(cfg: Config, site: CallSite, begin: nat, end: nat)
    requires cfg.level != Off
    requires 1 <= end < begin + 3
    ensures MakePeakIndex(cfg, site, begin, begin + 1, end - 1).Failure?
  {
  }

  /**
   * The two nested loops of the whole-window search, at outer index `p1` and
   * inner index `p3`; every range `(i, k)` already visited is dominated by
   * the best magnitude.
   */
  function ScanWindow(arr: seq<real>, p1: nat, p3: nat, best: Best): (r: Best)
    requires p1 + 2 < |arr|
    requires p1 + 2 <= p3 <= |arr|
    requires Ordered(best.peak) && IsValidForArray(arr, best.peak)
    requires best.mag >= 0.0
    requires (p1 == 0 && p3 == 2) || best.mag == GetPeakMagnitude(arr, best.peak)
    requires (p1 == 0 && p3 == 2) ==> best == Best(0.0, PeakIndex(0, 1, 2))
    requires forall i: nat, j: nat, k: nat ::
      (i < p1 || (i == p1 && k < p3)) && i < j < k < |arr| ==> MagnitudeAt(arr, i, j, k) <= best.mag
    ensures Ordered(r.peak) && IsValidForArray(arr, r.peak)
    ensures r.mag == GetPeakMagnitude(arr, r.peak)
    ensures forall i: nat, j: nat, k: nat :: i < j < k < |arr| ==> MagnitudeAt(arr, i, j, k) <= r.mag
    decreases |arr| - p1, |arr| - p3
  {
    if p3 == |arr| then
      if p1 + 3 < |arr| then ScanWindow(arr, p1 + 1, p1 + 3, best) else best
    else
      var peak := GreatestMagnitudePeakIn(arr, p1, p3 + 1);
      var m := GetPeakMagnitude(arr, peak);
      var best' := if m > best.mag then Best(m, peak) else best;
      assert forall j :: p1 < j < p3 ==> MagnitudeAt(arr, p1, j, p3) <= best'.mag;
      ScanWindow(arr, p1, p3 + 1, best')
  }

  /**
   * `greatest_magnitude_peak(arr)`: an ordered, in-bounds triple whose
   * magnitude is at least that of every triple `i < j < k` in the window.
   */
  function GreatestMagnitudePeak(arr: seq<real>): (r: PeakIndex)
    requires |arr| >= 3
    ensures Ordered(r) && IsValidForArray(arr, r)
    ensures forall i: nat, j: nat, k: nat :: i < j < k < |arr| ==> MagnitudeAt(arr, i, j, k) <= GetPeakMagnitude(arr, r)
  {
    ScanWindow(arr, 0, 2, Best(0.0, PeakIndex(0, 1, 2))).peak
  }

  /** The largest magnitude in the window is that of the whole-window search. */
  lemma GreatestIsMaximum(arr: seq<real>, m: real)
    requires |arr| >= 3
    requires exists i: nat, j: nat, k: nat :: i < j < k < |arr| && MagnitudeAt(arr, i, j, k) == m
    requires forall i: nat, j: nat, k: nat :: i < j < k < |arr| ==> MagnitudeAt(arr, i, j, k) <= m
    ensures GetPeakMagnitude(arr, GreatestMagnitudePeak(arr)) == m
  {
    var r := GreatestMagnitudePeak(arr);
    assert MagnitudeAt(arr, r.p1, r.p2, r.p3) <= m;
  }

  /** `ScalarFlicker<T, S>`: the limit, the decorated name and the window. */
  datatype ScalarFlicker = ScalarFlicker(limit: real, name: string, window: seq<real>)

  /** The name as stored: `"[" + name + "]: "`. */
  function DecoratedName(name: string): string {
    "[" + name + "]: "
  }

  /**
   * `ScalarFlicker(limit, name)` for a window of `size` samples: the limit must
   * be strictly positive, and the window starts out all zeros.
   */
  function MakeScalarFlicker(cfg: Config, site: CallSite, show: Float -> string, size: nat, limit: real, name: string)
    : (r: Result<ScalarFlicker, ContractViolation>)
    requires size >= 3
    ensures r.Success? <==> cfg.level == Off || limit > 0.0
    ensures r.Success? ==> r.value.limit == limit && r.value.name == DecoratedName(name)
    ensures r.Success? ==> |r.value.window| == size && forall i :: 0 <= i < size ==> r.value.window[i] == 0.0
    ensures r.Failure? ==> r.error.comment == DecoratedName(name) + "Magnitude limit ("
                           + FixedToString(show, Fin(limit)) + ") must be strictly positive."
  {
    Construct(cfg, site, DefaultTier,
              ReturnStatus(DecoratedName(name) + "Magnitude limit (" + FixedToString(show, Fin(limit))
                           + ") must be strictly positive.", limit > 0.0),
              ScalarFlicker(limit, DecoratedName(name), seq(size, _ => 0.0)))
  }

  /** `ScalarFlicker(limit)`, named "Flicker". */
  function MakeDefaultScalarFlicker(cfg: Config, site: CallSite, show: Float -> string, size: nat, limit: real)
    : (r: Result<ScalarFlicker, ContractViolation>)
    requires size >= 3
    ensures r.Success? <==> cfg.level == Off || limit > 0.0
    ensures r.Success? ==> r.value.limit == limit && r.value.name == "[Flicker]: "
  {
    MakeScalarFlicker(cfg, site, show, size, limit, "Flicker")
  }

  /** The audit comment of `no_flicker`. */
  function FlickerComment(show: Float -> string, f: ScalarFlicker, mag: real, peak: PeakIndex): string {
    f.name + "Magnitude (" + FixedToString(show, Fin(mag)) + ") of peak at " + PeakString(peak)
    + " must be less than the limit (" + FixedToString(show, Fin(f.limit)) + ")"
  }

  /** Every triple of the window has a magnitude below the limit. */
  predicate BelowLimit(window: seq<real>, limit: real) {
    forall i: nat, j: nat, k: nat :: i < j < k < |window| ==> MagnitudeAt(window, i, j, k) < limit
  }

  /**
   * `no_flicker(val)`: pushes `val` into the window, and passes exactly when
   * every triple of the new window has a magnitude below the limit.
   */
  function NoFlicker(level: BuildLevel, show: Float -> string, f: ScalarFlicker, v: real)
    : (r: (ScalarFlicker, ReturnStatus))
    requires |f.window| >= 3
    ensures r.0 == f.(window := RotateLeftAndSetBack(f.window, v))
    ensures r.1.status <==> BelowLimit(r.0.window, f.limit)
    ensures level != Audit ==> r.1.comment == []
  {
    var window := RotateLeftAndSetBack(f.window, v);
    var peak := GreatestMagnitudePeak(window);
    var mag := GetPeakMagnitude(window, peak);
    assert mag == MagnitudeAt(window, peak.p1, peak.p2, peak.p3);
    (f.(window := window),
     ReturnStatus(ContractComment(level, "", FlickerComment(show, f, mag, peak)), mag < f.limit))
  }

  /**
   * Pushing a non-empty prefix of `vs` is pushing its first sample, then the
   * rest of that prefix.
   */
  lemma PushPrefixUnfolds(w: seq<real>, vs: seq<real>)
    requires |w| > 0 && |vs| > 0
    ensures forall m :: 1 <= m <= |vs| ==>
      PushAll(w, vs[..m]) == PushAll(RotateLeftAndSetBack(w, vs[0]), vs[1..][..m - 1])
  {
    forall m | 1 <= m <= |vs|
      ensures PushAll(w, vs[..m]) == PushAll(RotateLeftAndSetBack(w, vs[0]), vs[1..][..m - 1])
    {
      var prefix := vs[..m];
      assert prefix != [] && prefix[0] == vs[0];
      assert prefix[1..] == vs[1..][..m - 1];
      assert PushAll(w, prefix) == PushAll(RotateLeftAndSetBack(w, prefix[0]), prefix[1..]);
    }
  }

  /**
   * The outcome of each push when the samples `vs` are fed to the detector
   * one after another: the n-th verdict passes exactly when every triple of
   * the window holding the first n + 1 samples is below the limit.
   */
  function NoFlickerAll(level: BuildLevel, show: Float -> string, f: ScalarFlicker, vs: seq<real>)
    : (r: seq<bool>)
    requires |f.window| >= 3
    ensures |r| == |vs|
    ensures forall n :: 0 <= n < |vs| ==> (r[n] <==> BelowLimit(PushAll(f.window, vs[..n + 1]), f.limit))
    decreases |vs|
  {
    if vs == [] then []
    else
      var (f', s) := NoFlicker(level, show, f, vs[0]);
      PushPrefixUnfolds(f.window, vs);
      [s.status] + NoFlickerAll(level, show, f', vs[1..])
  }

  /**
   * The n-th verdict judges the window made of the old window followed by the
   * first n + 1 samples, cut to the window's length; once the window has been
   * filled by the stream, that is exactly the latest `|f.window|` samples.
   */
  lemma VerdictJudgesLatestSamples(level: BuildLevel, show: Float -> string, f: ScalarFlicker, vs: seq<real>, n: nat)
    requires |f.window| >= 3
    requires n < |vs|
    ensures NoFlickerAll(level, show, f, vs)[n] <==> BelowLimit((f.window + vs[..n + 1])[n + 1..], f.limit)
    ensures n + 1 >= |f.window| ==>
      (NoFlickerAll(level, show, f, vs)[n] <==> BelowLimit(vs[n + 1 - |f.window|..n + 1], f.limit))
  {
    var pushed := vs[..n + 1];
    var r := NoFlickerAll(level, show, f, vs);
    assert r[n] <==> BelowLimit(PushAll(f.window, pushed), f.limit);
    WindowKeepsLatestSamples(f.window, pushed);
    assert |pushed| == n + 1;
    if n + 1 >= |f.window| {
      assert pushed[|pushed| - |f.window|..] == vs[n + 1 - |f.window|..n + 1];
    }
  }
}
