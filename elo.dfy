/** The rating model: the Elo update applied after every round and the
    shrinking of each candidate's uncertainty (`sd`). */
module Elo {
  import opened Settings

  /** The floor below which `sd` never shrinks. */
  const SdFloor: real := 125.0

  /** What the model relies on about `expectedScore(x, y) = 1 / (1 + 10^((x - y) / 400))`:
      it is the expected score of the side rated `y` against the side rated `x`,
      one half between equals, complementary when the sides swap, strictly between
      0 and 1, and falling as the opponent's rating `x` rises. */
  ghost predicate IsExpectedScore(E: (real, real) -> real)
  {
    && (forall r :: E(r, r) == 0.5)
    && (forall x, y :: E(x, y) + E(y, x) == 1.0)
    && (forall x, y :: 0.0 < E(x, y) < 1.0)
    && (forall x, x', y :: x < x' ==> E(x', y) < E(x, y))
  }

  /** A rational curve with the same shape as the logistic one; it shows that
      `IsExpectedScore` can be met. */
  function Logistic(x: real, y: real): real
  {
    var d := y - x;
    if d >= 0.0 then 1.0 - 0.5 / (1.0 + d) else 0.5 / (1.0 - d)
  }

  lemma LogisticIsExpectedScore()
    ensures IsExpectedScore(Logistic)
  {
    forall x, y ensures 0.0 < Logistic(x, y) < 1.0 {
      var d := y - x;
      if d >= 0.0 {
        assert 0.5 / (1.0 + d) <= 0.5;
      } else {
        assert 0.5 / (1.0 - d) < 0.5;
      }
    }
    forall x, x', y | x < x' ensures Logistic(x', y) < Logistic(x, y) {
      var d, d' := y - x, y - x';
      assert d' < d;
      if d' >= 0.0 {
        HalfOverAntitone(1.0 + d', 1.0 + d);
      } else if d >= 0.0 {
        assert 0.5 / (1.0 - d') < 0.5;
        assert 0.5 / (1.0 + d) <= 0.5;
      } else {
        HalfOverAntitone(1.0 - d, 1.0 - d');
      }
    }
  }

  lemma HalfOverAntitone(a: real, b: real)
    requires 0.0 < a < b
    ensures 0.5 / b < 0.5 / a
  {
    var qa, qb := 0.5 / a, 0.5 / b;
    assert qa * a == 0.5 && qb * b == 0.5;
    assert qa * a < qa * b;
    if qb >= qa {
      MulMonotone(qa, qb, b);
    }
  }

  lemma MulMonotone(x: real, y: real, c: real)
    requires x <= y && 0.0 <= c
    ensures x * c <= y * c
  {
  }

  /** The step of one round: the battle value spread over the test cases. */
  function RoundValue(battleValue: real, testCaseCount: nat): real
    requires testCaseCount > 0
  {
    battleValue / testCaseCount as real
  }

  /** `updateElo`: the new ratings of A and B after a round in which A scored `score`. */
  function UpdateElo(E: (real, real) -> real, ratingA: real, ratingB: real, score: real,
                     battleValue: real, testCaseCount: nat): (real, real)
    requires testCaseCount > 0
  {
    var v := RoundValue(battleValue, testCaseCount);
    (ratingA + v * (score - E(ratingB, ratingA)), ratingB + v * (1.0 - score - E(ratingA, ratingB)))
  }

  /** A moves by `v * (score - E(rB, rA))`, B by `v * (1 - score - E(rA, rB))`, and the
      two moves cancel: the update neither creates nor destroys rating. */
  lemma UpdateEloZeroSum(E: (real, real) -> real, ratingA: real, ratingB: real, score: real,
                         battleValue: real, testCaseCount: nat)
    requires IsExpectedScore(E)
    requires testCaseCount > 0
    ensures var (a, b) := UpdateElo(E, ratingA, ratingB, score, battleValue, testCaseCount);
            var v := battleValue / testCaseCount as real;
            && a - ratingA == v * (score - E(ratingB, ratingA))
            && b - ratingB == v * (1.0 - score - E(ratingA, ratingB))
            && a - ratingA == ratingB - b
            && a + b == ratingA + ratingB
  {
    var v := RoundValue(battleValue, testCaseCount);
    assert E(ratingA, ratingB) + E(ratingB, ratingA) == 1.0;
    calc {
      v * (score - E(ratingB, ratingA)) + v * (1.0 - score - E(ratingA, ratingB));
      v * (1.0 - (E(ratingA, ratingB) + E(ratingB, ratingA)));
      0.0;
    }
  }

  /** A drawn round between equally rated candidates leaves both ratings where they were. */
  lemma UpdateEloDrawBetweenEquals(E: (real, real) -> real, rating: real, battleValue: real, testCaseCount: nat)
    requires IsExpectedScore(E)
    requires testCaseCount > 0
    ensures UpdateElo(E, rating, rating, 0.5, battleValue, testCaseCount) == (rating, rating)
  {
    assert E(rating, rating) == 0.5;
  }

  /** A drawn round between unequally rated candidates still moves them: the lower-rated
      side gains and the higher-rated side loses. */
  lemma UpdateEloDrawBetweenUnequals(E: (real, real) -> real, ratingA: real, ratingB: real,
                                     battleValue: real, testCaseCount: nat)
    requires IsExpectedScore(E)
    requires testCaseCount > 0 && battleValue > 0.0
    requires ratingA < ratingB
    ensures var (a, b) := UpdateElo(E, ratingA, ratingB, 0.5, battleValue, testCaseCount);
            a > ratingA && b < ratingB
  {
    var v := RoundValue(battleValue, testCaseCount);
    assert v > 0.0;
    assert E(ratingB, ratingA) < E(ratingA, ratingA) == 0.5;
    assert E(ratingA, ratingB) > E(ratingB, ratingB) == 0.5;
    assert v * (0.5 - E(ratingB, ratingA)) > 0.0;
    assert v * (1.0 - 0.5 - E(ratingA, ratingB)) < 0.0;
  }

  /** The winner of a round gains rating and the loser gives it up, whatever the ratings. */
  lemma UpdateEloWinnerGains(E: (real, real) -> real, ratingA: real, ratingB: real,
                             battleValue: real, testCaseCount: nat)
    requires IsExpectedScore(E)
    requires testCaseCount > 0 && battleValue > 0.0
    ensures var (a, b) := UpdateElo(E, ratingA, ratingB, 1.0, battleValue, testCaseCount);
            a > ratingA && b < ratingB
    ensures var (a, b) := UpdateElo(E, ratingA, ratingB, 0.0, battleValue, testCaseCount);
            a < ratingA && b > ratingB
  {
    var v := RoundValue(battleValue, testCaseCount);
    assert v > 0.0;
    assert 0.0 < E(ratingB, ratingA) < 1.0 && 0.0 < E(ratingA, ratingB) < 1.0;
    assert v * (1.0 - E(ratingB, ratingA)) > 0.0;
    assert v * (0.0 - E(ratingA, ratingB)) < 0.0;
    assert v * (0.0 - E(ratingB, ratingA)) < 0.0;
    assert v * (1.0 - E(ratingA, ratingB)) > 0.0;
  }

  /** With the default battle value and a single test case, a win between two candidates
      rated 1000 moves them symmetrically to 1050 and 950. */
  lemma UpdateEloDefaultWin(E: (real, real) -> real)
    requires IsExpectedScore(E)
    ensures UpdateElo(E, StartingRating, StartingRating, 1.0, BattleValue, 1) == (1050.0, 950.0)
  {
    assert E(StartingRating, StartingRating) == 0.5;
  }

  /** The shrink of `sd` after every settled round: `max(sd * learningRate, 125)`.
      It never goes below the floor, and it never grows an `sd` already at or above
      the floor when the learning rate is at most 1. */
  function ShrinkSd(sd: real, learningRate: real): (r: real)
    ensures r >= SdFloor
    ensures sd >= SdFloor && learningRate <= 1.0 ==> r <= sd
  {
    if sd * learningRate > SdFloor then sd * learningRate else SdFloor
  }

  /** `sd` after `n` settled rounds. */
  function ShrinkSdTimes(sd: real, learningRate: real, n: nat): real
  {
    if n == 0 then sd else ShrinkSd(ShrinkSdTimes(sd, learningRate, n - 1), learningRate)
  }

  /** Repeated shrinking is non-increasing and stays at or above the floor. */
  lemma {:induction false} ShrinkSdTimesNonIncreasing(sd: real, learningRate: real, n: nat)
    requires learningRate <= 1.0
    requires sd >= SdFloor
    ensures SdFloor <= ShrinkSdTimes(sd, learningRate, n + 1) <= ShrinkSdTimes(sd, learningRate, n) <= sd
  {
    if n > 0 {
      ShrinkSdTimesNonIncreasing(sd, learningRate, n - 1);
    }
  }

  function Max(x: real, y: real): real
  {
    if x > y then x else y
  }

  /** The total taken off by `n` rounds that each take `d * 125`. */
  function Drop(d: real, n: nat): real
  {
    if n == 0 then 0.0 else Drop(d, n - 1) + d * SdFloor
  }

  lemma {:induction false} DropIsLinear(d: real, n: nat)
    ensures Drop(d, n) == n as real * (d * SdFloor)
  {
    if n > 0 {
      DropIsLinear(d, n - 1);
      assert (n - 1) as real * (d * SdFloor) + d * SdFloor == n as real * (d * SdFloor);
    }
  }

  lemma {:induction false} ShrinkSdDropBound(sd: real, d: real, n: nat)
    requires 0.0 < d <= 1.0
    requires sd >= SdFloor
    ensures ShrinkSdTimes(sd, 1.0 - d, n) <= Max(SdFloor, sd - Drop(d, n))
  {
    if n > 0 {
      var x := ShrinkSdTimes(sd, 1.0 - d, n - 1);
      ShrinkSdDropBound(sd, d, n - 1);
      ShrinkSdTimesNonIncreasing(sd, 1.0 - d, n - 1);
      ShrinkSdStepBound(x, d, Max(SdFloor, sd - Drop(d, n - 1)));
    }
  }

  /** Each shrink at rate `1 - d` takes at least `d * 125` off an `sd` above the floor. */
  lemma ShrinkSdLinearBound(sd: real, d: real, n: nat)
    requires 0.0 < d <= 1.0
    requires sd >= SdFloor
    ensures ShrinkSdTimes(sd, 1.0 - d, n) <= Max(SdFloor, sd - n as real * (d * SdFloor))
  {
    ShrinkSdDropBound(sd, d, n);
    DropIsLinear(d, n);
  }

  lemma ShrinkSdStepBound(x: real, d: real, bound: real)
    requires 0.0 < d <= 1.0
    requires SdFloor <= x <= bound
    ensures ShrinkSd(x, 1.0 - d) <= Max(SdFloor, bound - d * SdFloor)
  {
    var y := x * (1.0 - d);
    assert y == x - x * d;
    MulMonotone(SdFloor, x, d);
    assert y <= bound - d * SdFloor;
    if y > SdFloor {
      assert ShrinkSd(x, 1.0 - d) == y;
    } else {
      assert ShrinkSd(x, 1.0 - d) == SdFloor;
    }
  }

  /** `sd` converges: at rate `1 - d` below 1 it reaches the floor after finitely many
      rounds, any `n` with `sd <= 125 (1 + n d)` being enough. */
  lemma ShrinkSdReachesFloor(sd: real, d: real, n: nat)
    requires 0.0 < d <= 1.0
    requires sd >= SdFloor
    requires sd <= SdFloor * (1.0 + n as real * d)
    ensures ShrinkSdTimes(sd, 1.0 - d, n) == SdFloor
  {
    ShrinkSdLinearBound(sd, d, n);
    ShrinkSdTimesNonIncreasing(sd, 1.0 - d, n);
    assert SdFloor * (1.0 + n as real * d) == SdFloor + n as real * (d * SdFloor);
  }
}
