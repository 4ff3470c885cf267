/** The synthetic match generator: one random-walk step, and a game built
    from the initial stamp by repeated steps. The three random draws of a
    step are explicit inputs here, so every operation is deterministic. */
module Generator {
  import opened Stamps

  /** The random draws one step consumes: whether a goal happens, whether
      it goes to the home side, and how far the offset advances. */
  datatype Draw = Draw(scoreChanged: bool, homeScoreChange: bool, offsetChange: int)

  /** The offset advance is drawn from `1..=OffsetMaxStep`. */
  predicate ValidDraw(draw: Draw) {
    1 <= draw.offsetChange <= OffsetMaxStep
  }

  predicate ValidDraws(draws: seq<Draw>) {
    forall k :: 0 <= k < |draws| ==> ValidDraw(draws[k])
  }

  /** One step of the walk: the offset always advances by the drawn amount,
      and when a goal happens exactly one side scores it. */
  function GenerateStamp(previous: Stamp, draw: Draw): (next: Stamp)
    requires ValidDraw(draw)
    ensures previous.offset < next.offset <= previous.offset + OffsetMaxStep
    ensures next.offset - previous.offset == draw.offsetChange
    ensures previous.score.home <= next.score.home <= previous.score.home + 1
    ensures previous.score.away <= next.score.away <= previous.score.away + 1
    ensures next.score.home != previous.score.home <==> draw.scoreChanged && draw.homeScoreChange
    ensures next.score.away != previous.score.away <==> draw.scoreChanged && !draw.homeScoreChange
    ensures next.score.Goals() == previous.score.Goals() + (if draw.scoreChanged then 1 else 0)
    ensures !draw.scoreChanged ==> next.score == previous.score
  {
    Stamp(
      previous.offset + draw.offsetChange,
      Score(
        previous.score.home + (if draw.scoreChanged && draw.homeScoreChange then 1 else 0),
        previous.score.away + (if draw.scoreChanged && !draw.homeScoreChange then 1 else 0)))
  }

  /** The game the draws produce: the initial stamp followed by one stamp
      per draw, each a step from the one before. */
  function Game(draws: seq<Draw>): (game: seq<Stamp>)
    requires ValidDraws(draws)
    ensures |game| == |draws| + 1
    ensures game[0] == InitialStamp
  {
    if draws == [] then [InitialStamp]
    else
      var before := Game(draws[..|draws| - 1]);
      before + [GenerateStamp(Last(before), draws[|draws| - 1])]
  }

  /** Every stamp after the first is the step from its predecessor under
      the draw of the same position. */
  lemma {:induction false} GameSteps(draws: seq<Draw>, k: nat)
    requires ValidDraws(draws)
    requires k < |draws|
    ensures Game(draws)[k + 1] == GenerateStamp(Game(draws)[k], draws[k])
  {
    var prefix := draws[..|draws| - 1];
    assert ValidDraws(prefix);
    if k < |draws| - 1 {
      GameSteps(prefix, k);
      assert Game(draws)[k] == Game(prefix)[k];
      assert Game(draws)[k + 1] == Game(prefix)[k + 1];
      assert prefix[k] == draws[k];
    }
  }

  /** A generated game is a timeline, so it meets the query's precondition,
      and no side's score ever decreases in it. */
  lemma {:induction false} GameIsTimeline(draws: seq<Draw>)
    requires ValidDraws(draws)
    ensures Timeline(Game(draws))
    ensures ScoresNondecreasing(Game(draws))
  {
    if draws != [] {
      var prefix := draws[..|draws| - 1];
      assert ValidDraws(prefix);
      GameIsTimeline(prefix);
      var before := Game(prefix);
      var game := Game(draws);
      assert game == before + [game[|draws|]];
      forall i, j | 0 <= i < j < |game| ensures game[i].offset < game[j].offset {
        if j == |draws| {
          assert game[i].offset <= Last(before).offset;
        }
      }
      forall i, j | 0 <= i <= j < |game|
        ensures game[i].score.home <= game[j].score.home
        ensures game[i].score.away <= game[j].score.away
      {
        if i < j == |draws| {
          assert game[i].score.home <= Last(before).score.home;
          assert game[i].score.away <= Last(before).score.away;
        }
      }
    }
  }

  /** At most one goal per step: after `k` steps at most `k` goals exist. */
  lemma {:induction false} GameGoalsBounded(draws: seq<Draw>, k: nat)
    requires ValidDraws(draws)
    requires k <= |draws|
    ensures 0 <= Game(draws)[k].score.Goals() <= k
  {
    if k > 0 {
      var game := Game(draws);
      GameGoalsBounded(draws, k - 1);
      assert game[k].score.Goals() <= game[k - 1].score.Goals() + 1 by {
        GameSteps(draws, k - 1);
      }
      assert game[k - 1].score.Goals() <= game[k].score.Goals() by {
        GameSteps(draws, k - 1);
      }
    }
  }

  /** Builds the game by pushing `count` successive steps onto a vector that
      starts with the initial stamp. */
  method GenerateGame(count: nat, draws: seq<Draw>) returns (stamps: seq<Stamp>)
    requires |draws| == count
    requires ValidDraws(draws)
    ensures stamps == Game(draws)
    ensures |stamps| == count + 1 && stamps[0] == InitialStamp
    ensures Timeline(stamps) && ScoresNondecreasing(stamps)
  {
    stamps := [InitialStamp];
    var currentStamp := InitialStamp;
    for k := 0 to count
      invariant stamps == Game(draws[..k])
      invariant currentStamp == stamps[k]
    {
      currentStamp := GenerateStamp(currentStamp, draws[k]);
      stamps := stamps + [currentStamp];
      assert draws[..k + 1][..k] == draws[..k];
    }
    assert draws[..count] == draws;
    GameIsTimeline(draws);
  }

  /** The game as the program generates it: `TimestampsCount` steps after
      the initial stamp. */
  method GenerateFullGame(draws: seq<Draw>) returns (stamps: seq<Stamp>)
    requires |draws| == TimestampsCount
    requires ValidDraws(draws)
    ensures |stamps| == TimestampsCount + 1 && stamps[0] == InitialStamp
    ensures Timeline(stamps) && ScoresNondecreasing(stamps)
    ensures forall k :: 0 <= k < TimestampsCount ==>
      stamps[k + 1] == GenerateStamp(stamps[k], draws[k])
  {
    stamps := GenerateGame(TimestampsCount, draws);
    forall k | 0 <= k < TimestampsCount
      ensures stamps[k + 1] == GenerateStamp(stamps[k], draws[k])
    {
      GameSteps(draws, k);
    }
  }
}
