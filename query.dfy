/** The point-in-time query: the score differential in effect at an
    offset, found by a "narrow until adjacent" binary search with clamping
    at both ends of the recorded range. */
module ScoreQuery {
  import opened Stamps

  /** Reference definition of the floor stamp: the index of the latest
      stamp whose offset does not exceed `offset`, or -1 when there is
      none. It scans from the back and assumes nothing about the order. */
  function Floor(stamps: seq<Stamp>, offset: int): (i: int)
    ensures -1 <= i < |stamps|
    ensures 0 <= i ==> stamps[i].offset <= offset
    ensures forall j :: i < j < |stamps| ==> offset < stamps[j].offset
  {
    if stamps == [] then -1
    else if Last(stamps).offset <= offset then |stamps| - 1
    else Floor(stamps[..|stamps| - 1], offset)
  }

  /** Reference definition of the query's answer: the differential of the
      floor stamp, and 0 before the first stamp. */
  function ScoreAt(stamps: seq<Stamp>, offset: int): int {
    var i := Floor(stamps, offset);
    if i < 0 then 0 else stamps[i].score.Differential()
  }

  /** On increasing offsets the floor is the one index that brackets the
      offset: at or before it, and strictly before the next stamp. */
  lemma FloorBrackets(stamps: seq<Stamp>, offset: int, i: int)
    requires StrictlyIncreasing(stamps)
    requires -1 <= i < |stamps|
    requires 0 <= i ==> stamps[i].offset <= offset
    requires i + 1 < |stamps| ==> offset < stamps[i + 1].offset
    ensures Floor(stamps, offset) == i
  {
  }

  /** Exact match: querying at a stamp's own offset answers with that
      stamp's differential. */
  lemma ScoreAtExact(stamps: seq<Stamp>, i: nat)
    requires StrictlyIncreasing(stamps)
    requires i < |stamps|
    ensures ScoreAt(stamps, stamps[i].offset) == stamps[i].score.Differential()
  {
    FloorBrackets(stamps, stamps[i].offset, i);
  }

  /** Between two consecutive stamps the earlier one's score is in effect. */
  lemma ScoreAtBetween(stamps: seq<Stamp>, i: nat, offset: int)
    requires StrictlyIncreasing(stamps)
    requires i + 1 < |stamps|
    requires stamps[i].offset <= offset < stamps[i + 1].offset
    ensures ScoreAt(stamps, offset) == stamps[i].score.Differential()
  {
    FloorBrackets(stamps, offset, i);
  }

  /** At or after the last stamp the final score stays in effect. */
  lemma ScoreAtRightClamp(stamps: seq<Stamp>, offset: int)
    requires stamps != []
    requires Last(stamps).offset <= offset
    ensures ScoreAt(stamps, offset) == Last(stamps).score.Differential()
  {
  }

  /** Before the first stamp nothing has been scored; on a timeline that
      starts with the initial stamp the same holds up to offset 0. */
  lemma ScoreAtLeftClamp(stamps: seq<Stamp>, offset: int)
    requires Timeline(stamps) && stamps[0] == InitialStamp
    requires offset <= InitialStamp.offset
    ensures ScoreAt(stamps, offset) == 0
  {
    if offset < InitialStamp.offset {
      FloorBrackets(stamps, offset, -1);
    } else {
      FloorBrackets(stamps, offset, 0);
    }
  }

  /** The answer at `offset`, paired with `offset` itself.
      The slice must be non-empty (the last index is `len - 1` on an
      unsigned length), and a one-stamp slice must never reach the search
      loop, whose guard computes `right - 1` on an unsigned 0: that happens
      exactly when the offset lies strictly between 0 and the only stamp's
      offset. (With overflow checks the source panics there; without them
      `right - 1` wraps and the loop never ends.) */
  method GetScore(gameStamps: seq<Stamp>, offset: int) returns (differential: int, echoed: int)
    requires gameStamps != []
    requires |gameStamps| == 1 ==> !(InitialStamp.offset < offset < gameStamps[0].offset)
    ensures echoed == offset
    ensures Last(gameStamps).offset <= offset ==>
      differential == Last(gameStamps).score.Differential()
    ensures offset < Last(gameStamps).offset && offset <= InitialStamp.offset ==>
      differential == 0
    ensures Timeline(gameStamps) && InitialStamp.offset < offset < Last(gameStamps).offset ==>
      exists i :: 0 <= i < |gameStamps| - 1 &&
        gameStamps[i].offset <= offset < gameStamps[i + 1].offset &&
        differential == gameStamps[i].score.Differential()
    ensures Timeline(gameStamps) && gameStamps[0] == InitialStamp ==>
      differential == ScoreAt(gameStamps, offset)
  {
    var right := |gameStamps| - 1;
    var left := 0;
    var rightStamp := gameStamps[right];
    if offset >= rightStamp.offset {
      return rightStamp.score.Differential(), offset;
    } else if offset <= InitialStamp.offset {
      if Timeline(gameStamps) && gameStamps[0] == InitialStamp {
        ScoreAtLeftClamp(gameStamps, offset);
      }
      return 0, offset;
    }
    while left != right - 1
      invariant 0 <= left < right < |gameStamps|
      invariant left == 0 || gameStamps[left].offset < offset
      invariant offset < gameStamps[right].offset
      decreases right - left
    {
      var middle := (left + right) / 2;
      if gameStamps[middle].offset > offset {
        right := middle;
      } else if gameStamps[middle].offset < offset {
        left := middle;
      } else if gameStamps[middle].offset == offset {
        var stamp := gameStamps[middle];
        if Timeline(gameStamps) {
          ScoreAtExact(gameStamps, middle);
          FloorBrackets(gameStamps, offset, middle);
        }
        return stamp.score.Differential(), offset;
      }
    }
    var leftStamp := gameStamps[left];
    if Timeline(gameStamps) {
      ScoreAtBetween(gameStamps, left, offset);
    }
    return leftStamp.score.Differential(), offset;
  }
}
