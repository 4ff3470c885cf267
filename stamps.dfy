/** The values a match timeline is made of: a score, a timestamped score
    snapshot ("stamp"), the fixed configuration and the timeline invariant
    that the query relies on. Integers are unbounded here; the source uses
    32-bit `i32` fields. */
module Stamps {

  /** Number of random-walk steps one generated game takes. */
  const TimestampsCount: nat := 50000

  /** Inclusive upper bound of one step's offset advance (lower bound 1). */
  const OffsetMaxStep: int := 3

  /** Goals of each side. */
  datatype Score = Score(home: int, away: int) {

    /** Home goals minus away goals. */
    function Differential(): int {
      home - away
    }

    /** Goals scored by both sides together. */
    function Goals(): int {
      home + away
    }
  }

  /** "As of `offset`, the score is `score`." */
  datatype Stamp = Stamp(offset: int, score: Score)

  /** The first stamp of every generated game: offset 0, score 0-0. */
  const InitialStamp: Stamp := Stamp(0, Score(0, 0))

  function Last(stamps: seq<Stamp>): Stamp
    requires stamps != []
  {
    stamps[|stamps| - 1]
  }

  /** Offsets strictly increase along the sequence (any two positions). */
  ghost predicate StrictlyIncreasing(stamps: seq<Stamp>) {
    forall i, j :: 0 <= i < j < |stamps| ==> stamps[i].offset < stamps[j].offset
  }

  /** No side's tally ever goes down along the sequence. */
  ghost predicate ScoresNondecreasing(stamps: seq<Stamp>) {
    forall i, j :: 0 <= i <= j < |stamps| ==>
      stamps[i].score.home <= stamps[j].score.home &&
      stamps[i].score.away <= stamps[j].score.away
  }

  /** What a query may assume of its slice: non-empty, starting at the
      initial offset, strictly increasing offsets. */
  ghost predicate Timeline(stamps: seq<Stamp>) {
    stamps != [] &&
    stamps[0].offset == InitialStamp.offset &&
    StrictlyIncreasing(stamps)
  }
}
