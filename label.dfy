/**
 * `EffortScoreLabel` and `EffortScoreIcon`: the text and the SF Symbol name
 * shown for an Apple effort score. The title is the segment's localisation
 * key, or a skip key for `skipped`; the icon is `<rawValue>.circle.fill` for a
 * ranked score, a fixed symbol for `skipped` and `plus.circle` for no score.
 */
module Label {
  import opened Wrappers
  import opened AppleScore
  import AppleSegment

  /** The decimal digit character for `d`. */
  function DigitChar(d: nat): (c: char)
    requires d < 10
    ensures '0' <= c <= '9'
  {
    (d + '0' as int) as char
  }

  predicate IsDigit(c: char)
  {
    '0' <= c <= '9'
  }

  /** String interpolation of a natural number: its decimal digits, most significant first, without leading zeros. */
  function Digits(n: nat): (r: string)
    ensures |r| >= 1
    ensures forall i :: 0 <= i < |r| ==> IsDigit(r[i])
    ensures r[0] == '0' <==> n == 0
    ensures n < 10 <==> |r| == 1
  {
    if n < 10 then [DigitChar(n)] else Digits(n / 10) + [DigitChar(n % 10)]
  }

  /** Reads a string of decimal digits back as a number. */
  function ParseDigits(s: string): nat
    requires forall i :: 0 <= i < |s| ==> IsDigit(s[i])
  {
    if |s| == 0 then 0
    else
      var last := s[|s| - 1];
      assert IsDigit(last);
      10 * ParseDigits(s[..|s| - 1]) + (last as int - '0' as int)
  }

  /** Parsing the digits of `n` gives back `n`. */
  lemma {:induction false} DigitsRoundTrip(n: nat)
    ensures ParseDigits(Digits(n)) == n
  {
    var r := Digits(n);
    if n >= 10 {
      DigitsRoundTrip(n / 10);
      assert r[..|r| - 1] == Digits(n / 10);
    }
  }

  /** Different numbers have different digit strings. */
  lemma DigitsInjective(n: nat, m: nat)
    ensures Digits(n) == Digits(m) <==> n == m
  {
    DigitsRoundTrip(n);
    DigitsRoundTrip(m);
  }

  const CircleFill := ".circle.fill"
  const SkippedSymbol := "righttriangle.split.diagonal.fill"
  const NoScoreSymbol := "plus.circle"

  /** `EffortScoreIcon.systemName`. */
  function SystemName(score: Option<Score>): string
  {
    match score
    case None => NoScoreSymbol
    case Some(Skipped) => SkippedSymbol
    case Some(s) => Digits(RawValue(s)) + CircleFill
  }

  /** A ranked score's symbol starts with a digit and ends in `.circle.fill`; the other two symbols start with a letter. */
  lemma SystemNameShape(score: Option<Score>)
    ensures IsDigit(SystemName(score)[0]) <==> score.Some? && score.value != Skipped
    ensures score.Some? && score.value != Skipped ==>
      |SystemName(score)| == |Digits(RawValue(score.value))| + |CircleFill|
      && SystemName(score)[..|Digits(RawValue(score.value))|] == Digits(RawValue(score.value))
      && SystemName(score)[|Digits(RawValue(score.value))|..] == CircleFill
  {
    match score
    case None =>
    case Some(Skipped) =>
    case Some(s) =>
      var d := Digits(RawValue(s));
      assert (d + CircleFill)[0] == d[0];
      assert (d + CircleFill)[..|d|] == d;
      assert (d + CircleFill)[|d|..] == CircleFill;
  }

  /** Every score, and the absence of one, has its own symbol. */
  lemma SystemNameInjective(a: Option<Score>, b: Option<Score>)
    ensures SystemName(a) == SystemName(b) <==> a == b
  {
    SystemNameShape(a);
    SystemNameShape(b);
    if SystemName(a) == SystemName(b) && IsDigit(SystemName(a)[0]) {
      var x, y := a.value, b.value;
      var dx, dy := Digits(RawValue(x)), Digits(RawValue(y));
      assert |dx| == |dy|;
      assert dx == SystemName(a)[..|dx|] == dy;
      DigitsInjective(RawValue(x), RawValue(y));
      RawValueInjective(x, y);
    } else if SystemName(a) == SystemName(b) {
      assert a.None? <==> SystemName(a)[0] == 'p';
      assert b.None? <==> SystemName(b)[0] == 'p';
    }
  }

  /** The two-digit case: `allOut2` is shown as `10.circle.fill`. */
  lemma SystemNameOfAllOut2()
    ensures SystemName(Some(AllOut2)) == "10.circle.fill"
  {
    assert RawValue(AllOut2) == 10;
    assert Digits(10) == "10" by {
      assert Digits(10) == Digits(1) + [DigitChar(0)];
    }
  }

  /** `EffortScoreLabel.title`: the segment's title key, or the skip key for a list row or a summary. */
  function Title(score: Score, isList: bool): string
  {
    match SegmentOf(score)
    case Some(segment) => AppleSegment.LocalizedTitle(segment)
    case None => if isList then "common.skip" else "common.skipped"
  }

  /** Two scores get the same title exactly when they lie in the same segment (or are both `skipped`). */
  lemma TitleBySegment(a: Score, b: Score, isList: bool)
    ensures Title(a, isList) == Title(b, isList) <==> SegmentOf(a) == SegmentOf(b)
  {
    if Title(a, isList) == Title(b, isList) {
      var t := Title(a, isList);
      assert SegmentOf(a).None? <==> t[0] == 'c';
      assert SegmentOf(b).None? <==> t[0] == 'c';
      if SegmentOf(a).Some? {
        TitleKeyIdentifiesSegment(SegmentOf(a).value, SegmentOf(b).value);
      }
    }
  }

  /** Only `skipped` is titled differently in a list row and elsewhere. */
  lemma TitleDependsOnListOnlyWhenSkipped(score: Score)
    ensures Title(score, true) == Title(score, false) <==> score != Skipped
  {
    if score == Skipped {
      assert |Title(score, true)| != |Title(score, false)|;
    }
  }

  /** The title keys of the four segments differ right after the `scoreSegment.` prefix. */
  lemma TitleKeyIdentifiesSegment(x: Segment, y: Segment)
    ensures AppleSegment.LocalizedTitle(x) == AppleSegment.LocalizedTitle(y) <==> x == y
  {
    assert AppleSegment.LocalizedTitle(x)[13] == match x case Easy => 'e' case Moderate => 'm' case Hard => 'h' case AllOut => 'a';
    assert AppleSegment.LocalizedTitle(y)[13] == match y case Easy => 'e' case Moderate => 'm' case Hard => 'h' case AllOut => 'a';
  }
}
