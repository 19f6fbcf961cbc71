/**
 * `AppleEffortScoreSegment`: the four bands easy, moderate, hard and all-out.
 * Each band's `scores` is the ordered filter of `AppleEffortScore.allCases`
 * by `segment`; together the bands partition the ten ranked scores into runs
 * of 3, 3, 2 and 2. The `id` and the localisation keys are strings built
 * from the case name.
 */
module AppleSegment {
  import opened Wrappers
  import opened AppleScore
  import Collections

  /** `rawValue` of the `String` enum, which is also its `id`. */
  function Id(segment: Segment): string
  {
    match segment
    case Easy => "easy"
    case Moderate => "moderate"
    case Hard => "hard"
    case AllOut => "allOut"
  }

  lemma IdInjective(a: Segment, b: Segment)
    ensures Id(a) == Id(b) <==> a == b
  {
    if a != b {
      assert Id(a)[0] != Id(b)[0];
    }
  }

  /** The filter condition of `scores`: the score's `segment` is this one. */
  function Member(segment: Segment): Score -> bool
  {
    s => SegmentOf(s) == Some(segment)
  }

  /**
   * `scores`: all scores belonging to the segment, ordered. Given here by its
   * value; `ScoresAreFilter` proves it is the filter of `allCases` by `segment`.
   */
  function Scores(segment: Segment): seq<Score>
  {
    match segment
    case Easy => [Easy1, Easy2, Easy3]
    case Moderate => [Moderate1, Moderate2, Moderate3]
    case Hard => [Hard1, Hard2]
    case AllOut => [AllOut1, AllOut2]
  }

  /** `scores` is `allCases` filtered by `$0.segment == self`. */
  lemma ScoresAreFilter(segment: Segment)
    ensures Scores(segment) == Collections.Filter(AllCases(), Member(segment))
  {
    InSegmentIsFilter(AllCases(), segment);
    assert AllCases()[0..] == AllCases();
    match segment
    case Easy => EasyEvaluated();
    case Moderate => ModerateEvaluated();
    case Hard => HardEvaluated();
    case AllOut => AllOutEvaluated();
  }

  /** The filter by segment of `xs[from..]`, written without a closure and walking an index. */
  function InSegment(xs: seq<Score>, segment: Segment, from: nat := 0): seq<Score>
    requires from <= |xs|
    decreases |xs| - from
  {
    if from == |xs| then []
    else (if SegmentOf(xs[from]) == Some(segment) then [xs[from]] else []) + InSegment(xs, segment, from + 1)
  }

  /** The closure-free walk computes the generic filter by segment. */
  lemma {:induction false} InSegmentIsFilter(xs: seq<Score>, segment: Segment, from: nat := 0)
    requires from <= |xs|
    ensures InSegment(xs, segment, from) == Collections.Filter(xs[from..], Member(segment))
    decreases |xs| - from
  {
    if from < |xs| {
      InSegmentIsFilter(xs, segment, from + 1);
      assert xs[from..][1..] == xs[from + 1..];
    }
  }

  /** Each segment's filter of `allCases`, evaluated: the walk over the eleven cases keeps exactly the table's scores. */
  lemma EasyEvaluated()
    ensures Scores(Easy) == InSegment(AllCases(), Easy)
  {
    var xs := AllCases();
    assert InSegment(xs, Easy, 9) == [];
    assert InSegment(xs, Easy, 6) == [];
    assert InSegment(xs, Easy, 3) == [Easy3];
    assert InSegment(xs, Easy, 1) == [Easy1, Easy2, Easy3];
  }

  lemma ModerateEvaluated()
    ensures Scores(Moderate) == InSegment(AllCases(), Moderate)
  {
    var xs := AllCases();
    assert InSegment(xs, Moderate, 9) == [];
    assert InSegment(xs, Moderate, 7) == [];
    assert InSegment(xs, Moderate, 4) == [Moderate1, Moderate2, Moderate3];
    assert InSegment(xs, Moderate, 2) == [Moderate1, Moderate2, Moderate3];
  }

  lemma HardEvaluated()
    ensures Scores(Hard) == InSegment(AllCases(), Hard)
  {
    var xs := AllCases();
    assert InSegment(xs, Hard, 9) == [];
    assert InSegment(xs, Hard, 7) == [Hard1, Hard2];
    assert InSegment(xs, Hard, 5) == [Hard1, Hard2];
    assert InSegment(xs, Hard, 3) == [Hard1, Hard2];
  }

  lemma AllOutEvaluated()
    ensures Scores(AllOut) == InSegment(AllCases(), AllOut)
  {
    var xs := AllCases();
    assert InSegment(xs, AllOut, 9) == [AllOut1, AllOut2];
    assert InSegment(xs, AllOut, 7) == [AllOut1, AllOut2];
    assert InSegment(xs, AllOut, 5) == [AllOut1, AllOut2];
    assert InSegment(xs, AllOut, 3) == [AllOut1, AllOut2];
    assert InSegment(xs, AllOut, 1) == [AllOut1, AllOut2];
  }

  /** A segment's scores are exactly the scores whose `segment` it is. */
  lemma ScoresExact(segment: Segment)
    ensures forall s :: s in Scores(segment) <==> SegmentOf(s) == Some(segment)
  {
    forall s
      ensures s in Scores(segment) <==> SegmentOf(s) == Some(segment)
    {
      ScoresAreFilter(segment);
      Collections.FilterMembership(AllCases(), Member(segment), s);
      AllCasesComplete(s);
    }
  }

  /** A segment's scores have consecutive raw values, so they are strictly ascending. */
  lemma ScoresAscending(segment: Segment)
    ensures forall i :: 0 <= i < |Scores(segment)| ==> RawValue(Scores(segment)[i]) == RawValue(Scores(segment)[0]) + i
    ensures forall i, j :: 0 <= i < j < |Scores(segment)| ==> Less(Scores(segment)[i], Scores(segment)[j])
  {
    match segment
    case Easy =>
    case Moderate =>
    case Hard =>
    case AllOut =>
  }

  lemma AllCasesComplete(s: Score)
    ensures s in AllCases()
  {
    match s
    case Skipped => assert AllCases()[0] == s;
    case Easy1 => assert AllCases()[1] == s;
    case Easy2 => assert AllCases()[2] == s;
    case Easy3 => assert AllCases()[3] == s;
    case Moderate1 => assert AllCases()[4] == s;
    case Moderate2 => assert AllCases()[5] == s;
    case Moderate3 => assert AllCases()[6] == s;
    case Hard1 => assert AllCases()[7] == s;
    case Hard2 => assert AllCases()[8] == s;
    case AllOut1 => assert AllCases()[9] == s;
    case AllOut2 => assert AllCases()[10] == s;
  }

  /** The band sizes are 3, 3, 2, 2: never empty, so `scores.first!` and `scores.last!` cannot trap. */
  lemma ScoresSizes(segment: Segment)
    ensures |Scores(segment)| == if segment == Easy || segment == Moderate then 3 else 2
    ensures SegmentOf(Scores(segment)[0]) == Some(segment)
    ensures SegmentOf(Scores(segment)[|Scores(segment)| - 1]) == Some(segment)
  {
    match segment
    case Easy =>
    case Moderate =>
    case Hard =>
    case AllOut =>
  }

  /** The scores of all segments, concatenated in `allCases` order. */
  function ConcatScores(segments: seq<Segment>): seq<Score>
  {
    if |segments| == 0 then [] else Scores(segments[0]) + ConcatScores(segments[1..])
  }

  /** Concatenating the segments' scores in `allCases` order gives `easy1 ... allOut2`: `skipped` is left out. */
  lemma SegmentsPartitionRankedScores()
    ensures ConcatScores(AllSegments()) == AllCases()[1..]
    ensures Skipped !in ConcatScores(AllSegments())
  {
    var segs := AllSegments();
    assert ConcatScores(segs[3..]) == Scores(AllOut) by {
      assert segs[3..][1..] == [];
    }
    assert ConcatScores(segs[2..]) == Scores(Hard) + Scores(AllOut) by {
      assert segs[2..][1..] == segs[3..];
    }
    assert ConcatScores(segs[1..]) == Scores(Moderate) + Scores(Hard) + Scores(AllOut) by {
      assert segs[1..][1..] == segs[2..];
    }
  }

  /** The concatenation lists each ranked score once, at the position of its raw value. */
  lemma RankedScoresInOrder()
    ensures |ConcatScores(AllSegments())| == 10
    ensures forall i :: 0 <= i < 10 ==> RawValue(ConcatScores(AllSegments())[i]) == i + 1
  {
    SegmentsPartitionRankedScores();
  }

  /** Every score of an earlier segment is below every score of a later one. */
  lemma EarlierSegmentsScoreLower(i: nat, j: nat, a: Score, b: Score)
    requires i < j < |AllSegments()|
    requires a in Scores(AllSegments()[i]) && b in Scores(AllSegments()[j])
    ensures Less(a, b)
  {
    ScoresExact(AllSegments()[i]);
    ScoresExact(AllSegments()[j]);
    SegmentRanges(a);
    SegmentRanges(b);
  }

  /** `localizedTitle`. */
  function LocalizedTitle(segment: Segment): string
  {
    match segment
    case Easy => "scoreSegment.easy.title"
    case Moderate => "scoreSegment.moderate.title"
    case Hard => "scoreSegment.hard.title"
    case AllOut => "scoreSegment.allOut.title"
  }

  /** `localizedDescription`. */
  function LocalizedDescription(segment: Segment): string
  {
    match segment
    case Easy => "scoreSegment.easy.description"
    case Moderate => "scoreSegment.moderate.description"
    case Hard => "scoreSegment.hard.description"
    case AllOut => "scoreSegment.allOut.description"
  }

  /** The title key is the segment's id between a fixed prefix and suffix, hence distinct per segment. */
  lemma LocalizedTitleFollowsId(segment: Segment)
    ensures LocalizedTitle(segment) == "scoreSegment." + Id(segment) + ".title"
  {
    match segment
    case Easy => EasyTitle();
    case Moderate => ModerateTitle();
    case Hard => HardTitle();
    case AllOut => AllOutTitle();
  }

  /** Each segment's title key, checked with the segment known. */
  lemma EasyTitle()
    ensures LocalizedTitle(Easy) == "scoreSegment." + Id(Easy) + ".title"
  {
  }

  lemma ModerateTitle()
    ensures LocalizedTitle(Moderate) == "scoreSegment." + Id(Moderate) + ".title"
  {
  }

  lemma HardTitle()
    ensures LocalizedTitle(Hard) == "scoreSegment." + Id(Hard) + ".title"
  {
  }

  lemma AllOutTitle()
    ensures LocalizedTitle(AllOut) == "scoreSegment." + Id(AllOut) + ".title"
  {
  }

  /** The description key is the segment's id between a fixed prefix and suffix. */
  lemma LocalizedDescriptionFollowsId(segment: Segment)
    ensures LocalizedDescription(segment) == "scoreSegment." + Id(segment) + ".description"
  {
    match segment
    case Easy => EasyDescription();
    case Moderate => ModerateDescription();
    case Hard => HardDescription();
    case AllOut => AllOutDescription();
  }

  /** Each segment's description key, checked with the segment known. */
  lemma EasyDescription()
    ensures LocalizedDescription(Easy) == "scoreSegment." + Id(Easy) + ".description"
  {
  }

  lemma ModerateDescription()
    ensures LocalizedDescription(Moderate) == "scoreSegment." + Id(Moderate) + ".description"
  {
  }

  lemma HardDescription()
    ensures LocalizedDescription(Hard) == "scoreSegment." + Id(Hard) + ".description"
  {
  }

  lemma AllOutDescription()
    ensures LocalizedDescription(AllOut) == "scoreSegment." + Id(AllOut) + ".description"
  {
  }
}
