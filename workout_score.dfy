/**
 * The effort score of the workout picker (`WorkoutEffortScore`): the same
 * eleven cases as the Apple copy, but its clamping initializer sends every
 * value below 1 to `Easy1`, so `advanced(by:)` can never produce `Skipped`
 * and stepping from `Skipped` by 0 lands on `Easy1`.
 *
 * `WorkoutEffortScoreSegment` is modelled as the same four bands as
 * `AppleEffortScoreSegment` (easy, moderate, hard, allOut; the same scores
 * per band).
 */
module WorkoutScore {
  import opened Wrappers
  import Collections

  datatype Score =
    | Skipped
    | Easy1 | Easy2 | Easy3
    | Moderate1 | Moderate2 | Moderate3
    | Hard1 | Hard2
    | AllOut1 | AllOut2

  /** `WorkoutEffortScoreSegment`, in `allCases` order. */
  datatype Segment = Easy | Moderate | Hard | AllOut

  function RawValue(s: Score): (r: nat)
    ensures r <= 10
    ensures r == 0 <==> s == Skipped
  {
    match s
    case Skipped => 0
    case Easy1 => 1
    case Easy2 => 2
    case Easy3 => 3
    case Moderate1 => 4
    case Moderate2 => 5
    case Moderate3 => 6
    case Hard1 => 7
    case Hard2 => 8
    case AllOut1 => 9
    case AllOut2 => 10
  }

  /** The failable `init(rawValue:)` that Swift synthesises for an `Int` enum. */
  function FromRawValue(n: int): (r: Option<Score>)
    ensures r.Some? <==> 0 <= n <= 10
    ensures r.Some? ==> RawValue(r.value) == n
  {
    match n
    case 0 => Some(Skipped)
    case 1 => Some(Easy1)
    case 2 => Some(Easy2)
    case 3 => Some(Easy3)
    case 4 => Some(Moderate1)
    case 5 => Some(Moderate2)
    case 6 => Some(Moderate3)
    case 7 => Some(Hard1)
    case 8 => Some(Hard2)
    case 9 => Some(AllOut1)
    case 10 => Some(AllOut2)
    case _ => None
  }

  lemma RawValueInjective(a: Score, b: Score)
    ensures RawValue(a) == RawValue(b) <==> a == b
  {
    match a
    case Skipped =>
    case Easy1 =>
    case Easy2 =>
    case Easy3 =>
    case Moderate1 =>
    case Moderate2 =>
    case Moderate3 =>
    case Hard1 =>
    case Hard2 =>
    case AllOut1 =>
    case AllOut2 =>
  }

  /** `static func <`: comparison by raw value. */
  predicate Less(a: Score, b: Score)
  {
    RawValue(a) < RawValue(b)
  }

  /** `<` is a strict total order on the eleven cases. */
  lemma LessIsStrictTotalOrder()
    ensures forall a :: !Less(a, a)
    ensures forall a, b, c :: Less(a, b) && Less(b, c) ==> Less(a, c)
    ensures forall a, b :: a != b ==> Less(a, b) || Less(b, a)
  {
    forall a, b | a != b
      ensures Less(a, b) || Less(b, a)
    {
      RawValueInjective(a, b);
    }
  }

  /**
   * `init(safeScoreValue:)`: `Easy1` for anything below 1, the case with raw
   * value `n` when there is one, `AllOut2` otherwise.
   */
  function FromSafeValue(n: int): (s: Score)
    ensures s != Skipped
    ensures n < 1 ==> s == Easy1
    ensures 1 <= n <= 10 ==> RawValue(s) == n
    ensures n > 10 ==> s == AllOut2
  {
    if n < 1 then Easy1
    else
      match FromRawValue(n)
      case Some(score) => score
      case None => AllOut2
  }

  /** `distance(to:)`. */
  function Distance(from: Score, to: Score): (d: int)
    ensures -10 <= d <= 10
  {
    RawValue(to) - RawValue(from)
  }

  /** `advanced(by:)`: step by `n` through the clamping initializer. */
  function Advanced(s: Score, n: int): (r: Score)
    ensures r != Skipped
    ensures 1 <= RawValue(s) + n <= 10 ==> RawValue(r) == RawValue(s) + n
  {
    FromSafeValue(RawValue(s) + n)
  }

  /** Distance is antisymmetric and zero from a score to itself. */
  lemma DistanceAntisymmetric(a: Score, b: Score)
    ensures Distance(a, b) == -Distance(b, a)
    ensures Distance(a, b) == 0 <==> a == b
  {
    RawValueInjective(a, b);
  }

  /** Stepping never reaches `Skipped`; stepping `Skipped` by 0 gives `Easy1`, unlike the Apple copy. */
  lemma AdvancedNeverSkipped(a: Score, n: int)
    ensures Advanced(a, n) != Skipped
    ensures Advanced(Skipped, 0) == Easy1
  {
  }

  /** Advancing by the distance reaches the target exactly when the target is not `Skipped`. */
  lemma AdvancedByDistance(a: Score, b: Score)
    ensures Advanced(a, Distance(a, b)) == b <==> b != Skipped
  {
    if b != Skipped {
      RawValueInjective(Advanced(a, Distance(a, b)), b);
    }
  }

  /** `advanced(by:)` is monotone in the step and saturates at `Easy1` and `AllOut2`. */
  lemma AdvancedMonotoneSaturating(a: Score, n: int, m: int)
    requires n <= m
    ensures !Less(Advanced(a, m), Advanced(a, n))
    ensures RawValue(a) + n <= 1 ==> Advanced(a, n) == Easy1
    ensures RawValue(a) + m >= 10 ==> Advanced(a, m) == AllOut2
  {
    if RawValue(a) + n == 1 {
      RawValueInjective(Advanced(a, n), Easy1);
    }
    if RawValue(a) + m == 10 {
      RawValueInjective(Advanced(a, m), AllOut2);
    }
  }

  /** `segment`: nothing for `skipped`, otherwise the band the score belongs to. */
  function SegmentOf(s: Score): (r: Option<Segment>)
    ensures r.None? <==> s == Skipped
  {
    match s
    case Skipped => None
    case Easy1 | Easy2 | Easy3 => Some(Easy)
    case Moderate1 | Moderate2 | Moderate3 => Some(Moderate)
    case Hard1 | Hard2 => Some(Hard)
    case AllOut1 | AllOut2 => Some(AllOut)
  }

  /** The bands cover raw values 1-3, 4-6, 7-8 and 9-10; `skipped` is in none. */
  lemma SegmentRanges(s: Score)
    ensures SegmentOf(s).None? <==> s == Skipped
    ensures SegmentOf(s) == Some(Easy) <==> 1 <= RawValue(s) <= 3
    ensures SegmentOf(s) == Some(Moderate) <==> 4 <= RawValue(s) <= 6
    ensures SegmentOf(s) == Some(Hard) <==> 7 <= RawValue(s) <= 8
    ensures SegmentOf(s) == Some(AllOut) <==> 9 <= RawValue(s) <= 10
  {
  }

  /** `WorkoutEffortScoreSegment.allCases`. */
  function AllSegments(): seq<Segment>
  {
    [Easy, Moderate, Hard, AllOut]
  }

  /** `segmentIndex`: the position of the score's segment in `allCases`. */
  function SegmentIndex(s: Score): (r: Option<nat>)
    ensures r.None? <==> s == Skipped
    ensures r.Some? ==> r.value < |AllSegments()| && AllSegments()[r.value] == SegmentOf(s).value
  {
    match SegmentOf(s)
    case Some(segment) =>
      assert segment in AllSegments();
      Collections.FirstIndexOf(AllSegments(), segment)
    case None => None
  }

  /** The segment index is 0 through 3 and never decreases as the raw value grows. */
  lemma SegmentIndexMonotone(a: Score, b: Score)
    requires a != Skipped && b != Skipped
    requires RawValue(a) <= RawValue(b)
    ensures SegmentIndex(a).value <= SegmentIndex(b).value <= 3
  {
    var i, j := SegmentIndex(a).value, SegmentIndex(b).value;
    SegmentRanges(a);
    SegmentRanges(b);
    assert AllSegments()[i] == SegmentOf(a).value;
    assert AllSegments()[j] == SegmentOf(b).value;
  }

  /** `scores` of the mirrored segment enum: the scores of the band, ordered. */
  function Scores(segment: Segment): seq<Score>
  {
    match segment
    case Easy => [Easy1, Easy2, Easy3]
    case Moderate => [Moderate1, Moderate2, Moderate3]
    case Hard => [Hard1, Hard2]
    case AllOut => [AllOut1, AllOut2]
  }

  /** Each band's scores are exactly the scores whose `segment` it is; there are 3, 3, 2 and 2 of them. */
  lemma ScoresExact(segment: Segment)
    ensures forall s :: s in Scores(segment) <==> SegmentOf(s) == Some(segment)
    ensures |Scores(segment)| == if segment == Easy || segment == Moderate then 3 else 2
  {
    forall s
      ensures s in Scores(segment) <==> SegmentOf(s) == Some(segment)
    {
      match s
      case Skipped =>
      case Easy1 =>
      case Easy2 =>
      case Easy3 =>
      case Moderate1 =>
      case Moderate2 =>
      case Moderate3 =>
      case Hard1 =>
      case Hard2 =>
      case AllOut1 =>
      case AllOut2 =>
    }
  }
}
