/** The four query scenarios over the five-stamp fixture
    (offset, home, away) = (0,0,0) (3,1,1) (5,3,1) (9,6,0) (11,10,2). */
module QueryScenarios {
  import opened Stamps
  import opened ScoreQuery

  function FixtureStamps(): (stamps: seq<Stamp>)
    ensures Timeline(stamps) && stamps[0] == InitialStamp
  {
    [ Stamp(0, Score(0, 0)),
      Stamp(3, Score(1, 1)),
      Stamp(5, Score(3, 1)),
      Stamp(9, Score(6, 0)),
      Stamp(11, Score(10, 2)) ]
  }

  /** Offset 5 is a stamp's own offset: 3 - 1. */
  method OffsetExactlyInStamps() returns (differential: int, echoed: int)
    ensures differential == 2 && echoed == 5
  {
    var stamps := FixtureStamps();
    differential, echoed := GetScore(stamps, 5);
    ScoreAtExact(stamps, 2);
  }

  /** Offset 7 lies between the stamps at 5 and 9: the one at 5 applies. */
  method OffsetBetweenExistingStamps() returns (differential: int, echoed: int)
    ensures differential == 2 && echoed == 7
  {
    var stamps := FixtureStamps();
    differential, echoed := GetScore(stamps, 7);
    ScoreAtBetween(stamps, 2, 7);
  }

  /** Offset 12 is past the last stamp: its 10 - 2 stays in effect. */
  method OffsetOutOfRightRange() returns (differential: int, echoed: int)
    ensures differential == 8 && echoed == 12
  {
    var stamps := FixtureStamps();
    differential, echoed := GetScore(stamps, 12);
  }

  /** Offset -5 is before the start: 0, without reading the first stamp. */
  method OffsetOutOfLeftRange() returns (differential: int, echoed: int)
    ensures differential == 0 && echoed == -5
  {
    var stamps := FixtureStamps();
    differential, echoed := GetScore(stamps, -5);
  }

  /** A one-stamp slice starting past 0 is still answered at both clamps. */
  method SingleStampClamps() returns (after: int, before: int)
    ensures after == 1 && before == 0
  {
    var stamps := [Stamp(5, Score(1, 0))];
    var echoed;
    after, echoed := GetScore(stamps, 7);
    before, echoed := GetScore(stamps, -5);
  }
}
