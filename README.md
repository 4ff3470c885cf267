# Match score timeline: generator and point-in-time query

This project models the match-score timeline program in Dafny. The program
generates a synthetic match as a random walk of timestamped score snapshots
("stamps"). It then answers "what was the score differential at offset T?"
with a binary search over those stamps.

- `Stamps` (`stamps.dfy`): `Score` (home and away goals), `Stamp` (an
  offset and a score), the constants `TimestampsCount` (50000),
  `OffsetMaxStep` (3) and `InitialStamp` (offset 0, score 0-0), and the
  `Timeline` invariant the query relies on: non-empty, first offset 0,
  offsets strictly increasing.
- `Generator` (`generator.dfy`): one walk step (`GenerateStamp`). The three
  random draws of a step are an explicit `Draw` value: whether a goal
  happens, whether the home side scores it, and the offset advance in
  `1..=3`. `Game` is the specification of a whole game.
  `GenerateGame` is the source's loop: it pushes successive steps onto a
  vector that starts with the initial stamp, and it is proved to build
  `Game(draws)`. `GenerateFullGame` runs it with the program's fixed step
  count. The lemmas show that a generated game is a `Timeline`,
  that scores never decrease, and that at most one goal is scored per step.
- `ScoreQuery` (`query.dfy`): `GetScore` is the source's binary search.
  Its early returns, its `left`/`right` narrowing and its exact-match
  short-circuit are kept as written. It is proved against a reference
  definition, `ScoreAt`. That definition takes the differential of the
  floor stamp (`Floor`: the latest stamp at or before the offset, found by
  a plain scan) and 0 before the first stamp.
- `QueryScenarios` (`fixture.dfy`): the five-stamp test fixture and its
  four unit tests, as methods whose contracts give the expected pairs,
  and one more scenario: a one-stamp slice answered by the two clamps.

`GetScore` requires only what keeps the source from panicking. The slice
must be non-empty, because line 57 computes `len() - 1` on an unsigned
length. A one-stamp slice must also never reach the loop guard
`right - 1` on line 66, where `right` is 0. That happens exactly when the
offset lies strictly between 0 and the only stamp's offset. With overflow
checks on, as in a debug or test build, the source panics there. In a
release build `right - 1` wraps to the largest `usize`, `middle` and
`right` stay 0, and the loop never ends. A one-stamp slice is otherwise
answered by the two clamps. The clamping results and the echoed offset
hold for every admitted input. Floor semantics are promised when the
slice is a `Timeline`. Agreement with `ScoreAt` is promised when the
timeline also starts with the 0-0 initial stamp. `GenerateGame` proves
that its output is such a timeline.

The right clamp is checked before the left clamp, as in the source. So a
one-stamp timeline queried at offset 0 answers with that stamp's own
differential. The left clamp returns 0 without reading the first stamp's
score.

## Model

| member | source | states |
|---|---|---|
| Generator.GenerateStamp | task_1_2/src/main.rs:28-40 | the offset advances by the drawn amount, which lies in 1..=3, so it strictly increases; home goes up by one iff a goal happens and goes to home, and away goes up by one iff a goal happens and goes to away; neither side decreases; the goal total rises by exactly one when a goal happens; the score is unchanged otherwise |
| Generator.Game | task_1_2/src/main.rs:42-52 | a game of n draws has n + 1 stamps, and the first is the initial stamp |
| Generator.GameSteps | task_1_2/src/main.rs:46-49 | stamp k + 1 of a game is the walk step from stamp k under draw k |
| Generator.GameIsTimeline | task_1_2/src/main.rs:42-52 | a generated game starts at offset 0 with strictly increasing offsets, so it meets the query's precondition; no side's score ever decreases |
| Generator.GameGoalsBounded | task_1_2/src/main.rs:36-49 | after k steps the goal total lies between 0 and k |
| Generator.GenerateGame | task_1_2/src/main.rs:42-52 | the push loop returns exactly `Game(draws)`: count + 1 stamps starting with the initial stamp, forming a timeline with non-decreasing scores |
| Generator.GenerateFullGame | task_1_2/src/main.rs:3-52 | with the program's 50000 steps the game has 50001 stamps, starts with the initial stamp, is a timeline with non-decreasing scores, and each stamp is the step from the one before |
| ScoreQuery.Floor | task_1_2/src/main.rs:66-80 | the floor index is -1 or a stamp at or before the offset, and every later stamp lies strictly after the offset |
| ScoreQuery.FloorBrackets | task_1_2/src/main.rs:66-80 | on strictly increasing offsets, the index i with stamp i at or before the offset and stamp i + 1 after it is the floor, so it is unique |
| ScoreQuery.ScoreAtExact | task_1_2/src/main.rs:74-77 | querying at a stamp's own offset answers with that stamp's differential |
| ScoreQuery.ScoreAtBetween | task_1_2/src/main.rs:79-80 | an offset between two consecutive stamps answers with the earlier stamp's differential |
| ScoreQuery.ScoreAtRightClamp | task_1_2/src/main.rs:59-62 | at or beyond the last stamp's offset the last stamp's differential is in effect |
| ScoreQuery.ScoreAtLeftClamp | task_1_2/src/main.rs:63-65 | on a timeline starting with the 0-0 initial stamp the answer at any offset up to 0 is 0 |
| ScoreQuery.GetScore | task_1_2/src/main.rs:55-81 | the second component is the input offset on every path; at or beyond the last offset the result is the last stamp's differential; otherwise, at or below 0 it is 0; on a timeline, strictly inside the range, it is the differential of the unique stamp i with offset_i <= offset < offset_(i+1); on a timeline starting 0-0 it equals `ScoreAt`; the search stays in bounds and terminates |
| QueryScenarios.FixtureStamps | task_1_2/src/main.rs:94-119 | the fixture is a timeline that starts with the initial stamp |
| QueryScenarios.OffsetExactlyInStamps | task_1_2/src/main.rs:121-127 | querying offset 5 gives (2, 5) |
| QueryScenarios.OffsetBetweenExistingStamps | task_1_2/src/main.rs:129-137 | querying offset 7 gives (2, 7) |
| QueryScenarios.OffsetOutOfRightRange | task_1_2/src/main.rs:139-145 | querying offset 12 gives (8, 12) |
| QueryScenarios.OffsetOutOfLeftRange | task_1_2/src/main.rs:148-154 | querying offset -5 gives (0, -5) |
| QueryScenarios.SingleStampClamps | task_1_2/src/main.rs:57-64 | the one-stamp slice [(5, 1-0)] is answered without reaching the search: 1 at offset 7, 0 at offset -5 |

## Left out

- `main` (task_1_2/src/main.rs:84-87) is left out. It only runs one query and prints the result, which is I/O.
- The thread-local random number generator (`thread_rng`, `gen_bool`, `gen_range`) is left out. Its three draws per step are the `Draw` parameter. Only the range `1..=OFFSET_MAX_STEP` of the offset draw is kept, as a precondition.
- `PROBABILITY_SCORE_CHANGED` and `PROBABILITY_HOME_SCORE` are left out. They are `f64` distribution parameters, and the model makes no probabilistic claims.
- The `i32` fields are unbounded integers in the model. Overflow of `offset + offset_change` or `home - away` is not modelled, and the program never gets near it with 50000 steps of at most 3.
- GenerateGame: the step count is a parameter equal to the number of draws. `GenerateFullGame` runs it with the source's fixed `TIMESTAMPS_COUNT` (50000), kept as the constant `TimestampsCount`.
- The `Vec` is modelled as an immutable sequence that the loop reassigns. No aliasing or capacity behaviour of `push` is modelled.
- `#[derive(Debug, Clone, Copy)]` has no logical content and is not modelled.
