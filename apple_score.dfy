/**
 * The effort score of the Apple picker (`AppleEffortScore`): eleven cases with
 * raw values 0 through 10, where `Skipped` (0) means the user deliberately
 * skipped rating the workout. Scores are ordered by raw value and form a
 * one-dimensional affine space (`distance(to:)` / `advanced(by:)`) whose
 * `advanced(by:)` saturates through the clamping initializer.
 */
module AppleScore {
  import opened Wrappers
  import Collections

  datatype Score =
    | Skipped
    | Easy1 | Easy2 | Easy3
    | Moderate1 | Moderate2 | Moderate3
    | Hard1 | Hard2
    | AllOut1 | AllOut2

  /** `AppleEffortScoreSegment`, in its declaration (and `allCases`) order. */
  datatype Segment = Easy | Moderate | Hard | AllOut

  function RawValue(s: Score): (r: nat)
    ensures r <= 10
    ensures r == 0 <==> s == Skipped
  {
    match s
    case Skipped => 0
    case Easy1 => 1
    case Easy2 => 2
    case Easy3 => 3
    case Moderate1 => 4
    case Moderate2 => 5
    case Moderate3 => 6
    case Hard1 => 7
    case Hard2 => 8
    case AllOut1 => 9
    case AllOut2 => 10
  }

  /** `allCases`: the cases in declaration order. */
  function AllCases(): seq<Score>
  {
    [Skipped, Easy1, Easy2, Easy3, Moderate1, Moderate2, Moderate3, Hard1, Hard2, AllOut1, AllOut2]
  }

  /** The failable `init(rawValue:)` that Swift synthesises for an `Int` enum. */
  function FromRawValue(n: int): (r: Option<Score>)
    ensures r.Some? <==> 0 <= n <= 10
    ensures r.Some? ==> RawValue(r.value) == n
  {
    match n
    case 0 => Some(Skipped)
    case 1 => Some(Easy1)
    case 2 => Some(Easy2)
    case 3 => Some(Easy3)
    case 4 => Some(Moderate1)
    case 5 => Some(Moderate2)
    case 6 => Some(Moderate3)
    case 7 => Some(Hard1)
    case 8 => Some(Hard2)
    case 9 => Some(AllOut1)
    case 10 => Some(AllOut2)
    case _ => None
  }

  /** Every case is recovered from its raw value, so the raw value identifies the case. */
  lemma RawValueRoundTrip(s: Score)
    ensures FromRawValue(RawValue(s)) == Some(s)
  {
    match s
    case Skipped =>
    case Easy1 =>
    case Easy2 =>
    case Easy3 =>
    case Moderate1 =>
    case Moderate2 =>
    case Moderate3 =>
    case Hard1 =>
    case Hard2 =>
    case AllOut1 =>
    case AllOut2 =>
  }

  lemma RawValueInjective(a: Score, b: Score)
    ensures RawValue(a) == RawValue(b) <==> a == b
  {
    RawValueRoundTrip(a);
    RawValueRoundTrip(b);
  }

  /** `static func <`: comparison by raw value. */
  predicate Less(a: Score, b: Score)
  {
    RawValue(a) < RawValue(b)
  }

  /** `<` is a strict total order on the eleven cases. */
  lemma LessIsStrictTotalOrder()
    ensures forall a :: !Less(a, a)
    ensures forall a, b, c :: Less(a, b) && Less(b, c) ==> Less(a, c)
    ensures forall a, b :: a != b ==> Less(a, b) || Less(b, a)
    ensures forall a, b :: Less(a, b) ==> !Less(b, a)
  {
    forall a, b | a != b
      ensures Less(a, b) || Less(b, a)
    {
      RawValueInjective(a, b);
    }
  }

  /** `Sequence.min()` under `<`: the first element that no other element is below. */
  function Minimum(cases: seq<Score>): (m: Score)
    requires |cases| > 0
    ensures m in cases
    ensures forall c :: c in cases ==> !Less(c, m)
  {
    if |cases| == 1 then cases[0]
    else
      var rest := Minimum(cases[1..]);
      assert forall c :: c in cases ==> c == cases[0] || c in cases[1..];
      if Less(rest, cases[0]) then rest else cases[0]
  }

  /** `Sequence.max()` under `<`: the first element that no other element is above. */
  function Maximum(cases: seq<Score>): (m: Score)
    requires |cases| > 0
    ensures m in cases
    ensures forall c :: c in cases ==> !Less(m, c)
  {
    if |cases| == 1 then cases[0]
    else
      var rest := Maximum(cases[1..]);
      assert forall c :: c in cases ==> c == cases[0] || c in cases[1..];
      if Less(cases[0], rest) then rest else cases[0]
  }

  /** The bounds the clamping initializer falls back on are `skipped` and `allOut2`. */
  lemma AllCasesBounds()
    ensures Minimum(AllCases()) == Skipped
    ensures Maximum(AllCases()) == AllOut2
  {
    var lo, hi := Minimum(AllCases()), Maximum(AllCases());
    assert Skipped in AllCases() && AllOut2 in AllCases();
    assert RawValue(lo) == 0;
    assert RawValue(hi) == 10;
    RawValueInjective(lo, Skipped);
    RawValueInjective(hi, AllOut2);
  }

  /**
   * `init(safeScoreValue:)`: the case with raw value `n` when there is one,
   * otherwise the minimum of `allCases` below the range and its maximum above.
   */
  function FromSafeValue(n: int): (s: Score)
    ensures 0 <= n <= 10 ==> RawValue(s) == n
    ensures n < 0 ==> s == Skipped
    ensures n > 10 ==> s == AllOut2
  {
    match FromRawValue(n)
    case Some(score) => score
    case None =>
      AllCasesBounds();
      var lowerBound := Minimum(AllCases());
      var upperBound := Maximum(AllCases());
      if n < RawValue(lowerBound) then lowerBound else upperBound
  }

  /** The raw value of the clamped score is `n` pulled into `0 ... 10`; it is `skipped` exactly for `n <= 0`. */
  lemma FromSafeValueRank(n: int)
    ensures RawValue(FromSafeValue(n)) == if n < 0 then 0 else if n > 10 then 10 else n
    ensures FromSafeValue(n) == Skipped <==> n <= 0
  {
    RawValueInjective(FromSafeValue(n), Skipped);
  }

  /** `distance(to:)`. */
  function Distance(from: Score, to: Score): (d: int)
    ensures -10 <= d <= 10
  {
    RawValue(to) - RawValue(from)
  }

  /** `advanced(by:)`: step by `n` through the clamping initializer. */
  function Advanced(s: Score, n: int): (r: Score)
    ensures 0 <= RawValue(s) + n <= 10 ==> RawValue(r) == RawValue(s) + n
  {
    FromSafeValue(RawValue(s) + n)
  }

  /** Distance is antisymmetric and zero from a score to itself. */
  lemma DistanceAntisymmetric(a: Score, b: Score)
    ensures Distance(a, b) == -Distance(b, a)
    ensures Distance(a, a) == 0
    ensures Distance(a, b) == 0 <==> a == b
  {
    RawValueInjective(a, b);
  }

  /** Advancing by the distance reaches the target, for every pair; advancing by 0 is the identity. */
  lemma AdvancedByDistance(a: Score, b: Score)
    ensures Advanced(a, Distance(a, b)) == b
    ensures Advanced(a, 0) == a
  {
    RawValueInjective(FromSafeValue(RawValue(b)), b);
    RawValueInjective(FromSafeValue(RawValue(a)), a);
  }

  /** The raw value of the clamped score is `n` pulled into 0...10. */
  lemma FromSafeValueMonotone(n: int, m: int)
    requires n <= m
    ensures RawValue(FromSafeValue(n)) <= RawValue(FromSafeValue(m))
  {
  }

  /** `advanced(by:)` is monotone in the step and saturates at both ends. */
  lemma AdvancedMonotoneSaturating(a: Score, n: int, m: int)
    requires n <= m
    ensures !Less(Advanced(a, m), Advanced(a, n))
    ensures RawValue(a) + n <= 0 ==> Advanced(a, n) == Skipped
    ensures RawValue(a) + m >= 10 ==> Advanced(a, m) == AllOut2
  {
    FromSafeValueMonotone(RawValue(a) + n, RawValue(a) + m);
    if RawValue(a) + n == 0 {
      RawValueInjective(Advanced(a, n), Skipped);
    }
    if RawValue(a) + m == 10 {
      RawValueInjective(Advanced(a, m), AllOut2);
    }
  }

  /** `segment`: nothing for `skipped`, otherwise the band the score belongs to. */
  function SegmentOf(s: Score): (r: Option<Segment>)
    ensures r.None? <==> s == Skipped
  {
    match s
    case Skipped => None
    case Easy1 | Easy2 | Easy3 => Some(Easy)
    case Moderate1 | Moderate2 | Moderate3 => Some(Moderate)
    case Hard1 | Hard2 => Some(Hard)
    case AllOut1 | AllOut2 => Some(AllOut)
  }

  /** The bands cover raw values 1-3, 4-6, 7-8 and 9-10; `skipped` is in none. */
  lemma SegmentRanges(s: Score)
    ensures SegmentOf(s).None? <==> s == Skipped
    ensures SegmentOf(s) == Some(Easy) <==> 1 <= RawValue(s) <= 3
    ensures SegmentOf(s) == Some(Moderate) <==> 4 <= RawValue(s) <= 6
    ensures SegmentOf(s) == Some(Hard) <==> 7 <= RawValue(s) <= 8
    ensures SegmentOf(s) == Some(AllOut) <==> 9 <= RawValue(s) <= 10
  {
  }

  /** `AppleEffortScoreSegment.allCases`. */
  function AllSegments(): seq<Segment>
  {
    [Easy, Moderate, Hard, AllOut]
  }

  /**
   * `segmentIndex`: the position of the score's segment in `allCases`. The
   * positions are written out here; `SegmentIndexIsFirstIndex` proves they are
   * what `allCases.firstIndex(of:)` returns.
   */
  function SegmentIndex(s: Score): (r: Option<nat>)
    ensures r.None? <==> s == Skipped
    ensures r.Some? ==> r.value < |AllSegments()| && AllSegments()[r.value] == SegmentOf(s).value
  {
    match SegmentOf(s)
    case Some(Easy) => Some(0)
    case Some(Moderate) => Some(1)
    case Some(Hard) => Some(2)
    case Some(AllOut) => Some(3)
    case None => None
  }

  /** The written-out position is the first index of the score's segment in `allCases`. */
  lemma SegmentIndexIsFirstIndex(s: Score)
    requires s != Skipped
    ensures SegmentIndex(s) == Collections.FirstIndexOf(AllSegments(), SegmentOf(s).value)
  {
  }

  /** The segment index is 0 through 3 and never decreases as the raw value grows. */
  lemma SegmentIndexMonotone(a: Score, b: Score)
    requires a != Skipped && b != Skipped
    requires RawValue(a) <= RawValue(b)
    ensures SegmentIndex(a).value <= SegmentIndex(b).value <= 3
  {
    var i, j := SegmentIndex(a).value, SegmentIndex(b).value;
    SegmentRanges(a);
    SegmentRanges(b);
    assert AllSegments()[i] == SegmentOf(a).value;
    assert AllSegments()[j] == SegmentOf(b).value;
  }

  /** A ranked score's segment index by raw value: 0 for 1-3, 1 for 4-6, 2 for 7-8 and 3 for 9-10. */
  lemma SegmentIndexByRank(s: Score)
    requires s != Skipped
    ensures SegmentIndex(s).value == if RawValue(s) <= 3 then 0 else if RawValue(s) <= 6 then 1 else if RawValue(s) <= 8 then 2 else 3
  {
    var i := SegmentIndex(s).value;
    SegmentRanges(s);
    assert AllSegments()[i] == SegmentOf(s).value;
  }
}
