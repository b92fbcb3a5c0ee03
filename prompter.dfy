/** The auto-prompter's state, the synced lists of `useAutoPrompter`, and the
    operations that change it: running a battle and the roster bookkeeping. */
module Prompter {
  import opened Wrappers
  import opened Settings
  import opened Elo
  import opened Roster
  import opened Matchmaking

  class AutoPrompter {
    /** `expectedScore`: a parameter of the model, known only by its properties. */
    const E: (real, real) -> real
    var candidates: seq<Candidate>
    var testCases: seq<string>
    var battles: seq<Battle>
    var ratingHistory: seq<Snapshot>

    ghost predicate Valid()
      reads this
    {
      IsExpectedScore(E) && Numbered(ratingHistory) && SdAboveFloor(candidates)
    }

    constructor (E: (real, real) -> real, testCases: seq<string>)
      requires IsExpectedScore(E)
      ensures Valid()
      ensures this.E == E && this.testCases == testCases
      ensures candidates == [] && battles == [] && ratingHistory == []
    {
      this.E := E;
      this.testCases := testCases;
      candidates, battles, ratingHistory := [], [], [];
    }

    /** `takeSnapshotOfRatings`: appends a snapshot numbered by the history's length,
        with one entry per candidate in roster order. */
    method TakeSnapshotOfRatings()
      requires Valid()
      modifies this
      ensures Valid()
      ensures ratingHistory == old(ratingHistory) + [Snapshot(|old(ratingHistory)|, RatingsOf(candidates))]
      ensures candidates == old(candidates) && battles == old(battles) && testCases == old(testCases)
    {
      ratingHistory := ratingHistory + [Snapshot(|ratingHistory|, RatingsOf(candidates))];
    }

    /** The rating writes of one settled round between the candidates at `ia` and `ib`:
        both ratings, then both `sd` values. An internal step of `SettleRounds`: it
        changes only the roster, and keeps the part of `Valid()` about the roster, the
        `sd` floor. */
    method UpdateRatings(ia: nat, ib: nat, score: real)
      requires ia < |candidates| && ib < |candidates| && ia != ib
      requires testCases != []
      modifies this
      ensures SdAboveFloor(old(candidates)) ==> SdAboveFloor(candidates)
      ensures testCases == old(testCases) && battles == old(battles) && ratingHistory == old(ratingHistory)
      ensures candidates == SettleRound(E, old(candidates), ia, ib, score, |testCases|)
    {
      var n := |testCases|;
      SettleRoundInWriteOrder(E, candidates, ia, ib, score, n);
      var (newRatingA, newRatingB) := UpdateElo(E, candidates[ia].rating, candidates[ib].rating, score, BattleValue, n);
      candidates := candidates[ia := candidates[ia].(rating := newRatingA)];
      candidates := candidates[ib := candidates[ib].(rating := newRatingB)];
      candidates := candidates[ia := candidates[ia].(sd := ShrinkSd(candidates[ia].sd, LearningRate))];
      candidates := candidates[ib := candidates[ib].(sd := ShrinkSd(candidates[ib].sd, LearningRate))];
    }

    /** The rounds of a battle between the candidates at `ia` and `ib`, settled one at
        a time in test-case order: each writes both ratings, then both `sd` values,
        then its own round record. The loop of `SettleRounds`: like `UpdateRatings`, it
        keeps the `sd` floor, the part of `Valid()` that it touches. */
    method PlayRounds(ia: nat, ib: nat, generations: seq<Generation>, tokens: seq<Option<string>>)
      returns (rounds: seq<Round>)
      requires ia < |candidates| && ib < |candidates| && ia != ib
      requires testCases != []
      requires |generations| == |testCases| && |tokens| == |testCases|
      modifies this
      ensures SdAboveFloor(old(candidates)) ==> SdAboveFloor(candidates)
      ensures testCases == old(testCases) && battles == old(battles) && ratingHistory == old(ratingHistory)
      ensures candidates == SettleAll(E, old(candidates), ia, ib, Scores(tokens), |testCases|)
      ensures rounds == SettledRounds(testCases, generations, tokens)
    {
      var n, tcs := |testCases|, testCases;
      ghost var start := candidates;
      rounds := seq(n, i requires 0 <= i < n => Round(tcs[i], Generation("", ""), None));
      var scores := Scores(tokens);
      var i := 0;
      while i < n
        invariant i <= n && tcs == testCases
        invariant testCases == old(testCases) && battles == old(battles) && ratingHistory == old(ratingHistory)
        invariant candidates == SettleAll(E, start, ia, ib, scores[..i], n)
        invariant |rounds| == n
        invariant forall j :: 0 <= j < i ==> rounds[j] == Round(tcs[j], generations[j], Some(ResultOf(ScoreOf(tokens[j]))))
      {
        var score := ScoreOf(tokens[i]);
        UpdateRatings(ia, ib, score);
        SettleAllSnoc(E, start, ia, ib, scores[..i], score, n);
        assert scores[..i + 1] == scores[..i] + [score];
        rounds := rounds[i := Round(tcs[i], generations[i], Some(ResultOf(score)))];
        i := i + 1;
      }
      assert scores[..n] == scores;
      SettleAllShrinksSd(E, start, ia, ib, scores, n);
      SettledRoundsByElement(testCases, generations, tokens, rounds);
    }

    /** Settling the rounds of a battle keeps the class invariant, conserves the sum of
        the ratings and grows no `sd`. */
    method SettleRounds(ia: nat, ib: nat, generations: seq<Generation>, tokens: seq<Option<string>>)
      returns (rounds: seq<Round>)
      requires Valid()
      requires ia < |candidates| && ib < |candidates| && ia != ib
      requires testCases != []
      requires |generations| == |testCases| && |tokens| == |testCases|
      modifies this
      ensures Valid()
      ensures testCases == old(testCases) && battles == old(battles) && ratingHistory == old(ratingHistory)
      ensures candidates == SettleAll(E, old(candidates), ia, ib, Scores(tokens), |testCases|)
      ensures rounds == SettledRounds(testCases, generations, tokens)
      ensures RatingSum(candidates) == RatingSum(old(candidates))
      ensures forall k :: 0 <= k < |candidates| ==> candidates[k].sd <= old(candidates)[k].sd
    {
      rounds := PlayRounds(ia, ib, generations, tokens);
      SettleAllConservesRating(E, old(candidates), ia, ib, Scores(tokens), |testCases|);
      SettleAllShrinksSd(E, old(candidates), ia, ib, Scores(tokens), |testCases|);
    }

    /** `runBattle`: count Monte-Carlo wins from the `samples` (one vector per iteration,
        one sample per key), draw the two fighters with `drawA` and `drawB`, settle one
        round per test case from the fetched `generations` and judge `tokens`, then
        record the battle and a snapshot. It fails, changing nothing, when there is a
        test case and a fighter is not in the roster (the source reads a property of
        `undefined` before its first write). */
    method RunBattle(samples: seq<seq<real>>, drawA: int, drawB: int,
                     generations: seq<Generation>, tokens: seq<Option<string>>) returns (ok: bool)
      requires Valid()
      requires Rectangular(samples, |Keys(candidates)|)
      requires |generations| == |testCases| && |tokens| == |testCases|
      modifies this
      ensures Valid()
      ensures testCases == old(testCases)
      ensures var (a, b) := Pairing(old(candidates), samples, drawA, drawB);
              var ia, ib := FindIndex(old(candidates), a), FindIndex(old(candidates), b);
              && (ok <==> testCases == [] || (ia.Some? && ib.Some?))
              && (!ok ==> candidates == old(candidates) && battles == old(battles) && ratingHistory == old(ratingHistory))
              && (ok ==>
                    && candidates == (if testCases == [] then old(candidates)
                                      else SettleAll(E, old(candidates), ia.value, ib.value, Scores(tokens), |testCases|))
                    && var rounds := SettledRounds(testCases, generations, tokens);
                       battles == old(battles) + [Battle(a, b, rounds, Some(Winner(rounds)))])
      ensures ok ==> ratingHistory == old(ratingHistory) + [Snapshot(|old(ratingHistory)|, RatingsOf(candidates))]
      ensures RatingSum(candidates) == RatingSum(old(candidates))
      ensures |candidates| == |old(candidates)| &&
              forall k :: 0 <= k < |candidates| ==> candidates[k].sd <= old(candidates)[k].sd
    {
      var keys := Keys(candidates);
      var counts := CountWins(keys, samples);
      var a := RandomlySelectFromDistribution(keys, counts, None, drawA);
      var b := RandomlySelectFromDistribution(keys, counts, a, drawB);
      PairingDistinct(candidates, samples, drawA, drawB);
      var ia, ib := FindIndex(candidates, a), FindIndex(candidates, b);
      if testCases != [] && (ia.None? || ib.None?) {
        return false;
      }
      var rounds: seq<Round>;
      if testCases == [] {
        rounds := [];
      } else {
        rounds := SettleRounds(ia.value, ib.value, generations, tokens);
      }
      battles := battles + [Battle(a, b, rounds, Some(Winner(rounds)))];
      TakeSnapshotOfRatings();
      ok := true;
    }

    /** `removeCandidate`: drops every candidate with the id, every battle it fought
        and its entries in every snapshot; the rest keeps its order and the history
        keeps its length and numbering. */
    method RemoveCandidate(id: nat)
      requires Valid()
      modifies this
      ensures Valid()
      ensures candidates == Filter(OtherCandidate(id), old(candidates))
      ensures battles == Filter(NotFoughtBy(id), old(battles))
      ensures ratingHistory == DropFromHistory(old(ratingHistory), id)
      ensures testCases == old(testCases)
    {
      candidates := Filter(OtherCandidate(id), candidates);
      battles := Filter(NotFoughtBy(id), battles);
      ratingHistory := DropFromHistory(ratingHistory, id);
      forall i | 0 <= i < |candidates|
        ensures candidates[i].sd >= SdFloor
      {
        assert candidates[i] in old(candidates);
      }
    }

    /** `resetCandidatesRatingAndSD`. */
    method ResetCandidatesRatingAndSD()
      requires Valid()
      modifies this
      ensures Valid()
      ensures candidates == ResetRatings(old(candidates))
      ensures battles == old(battles) && ratingHistory == old(ratingHistory) && testCases == old(testCases)
    {
      candidates := ResetRatings(candidates);
    }

    /** `createEmptyCandidate`: appends an empty prompt whose id is the roster's length. */
    method CreateEmptyCandidate()
      requires Valid()
      modifies this
      ensures Valid()
      ensures candidates == old(candidates) + [Candidate("", StartingRating, StartingSD, |old(candidates)|)]
      ensures battles == old(battles) && ratingHistory == old(ratingHistory) && testCases == old(testCases)
    {
      candidates := candidates + [Candidate("", StartingRating, StartingSD, |candidates|)];
    }

    /** `clearCandidates`: empties the roster, the battle log and the history. */
    method ClearCandidates()
      requires Valid()
      modifies this
      ensures Valid()
      ensures candidates == [] && battles == [] && ratingHistory == []
      ensures testCases == old(testCases)
    {
      candidates, battles, ratingHistory := [], [], [];
    }

    /** `clearBattles`: empties the battle log and the history, keeping the roster. */
    method ClearBattles()
      requires Valid()
      modifies this
      ensures Valid()
      ensures battles == [] && ratingHistory == []
      ensures candidates == old(candidates) && testCases == old(testCases)
    {
      battles, ratingHistory := [], [];
    }

    /** The append step of `generatePromptCandidates` for the fetched `responses`. */
    method GeneratePromptCandidates(responses: seq<string>)
      requires Valid()
      modifies this
      ensures Valid()
      ensures candidates == old(candidates) + GeneratedCandidates(responses)
      ensures battles == old(battles) && ratingHistory == old(ratingHistory) && testCases == old(testCases)
    {
      var prompts := Filter(NonEmpty(), responses);
      if |prompts| > 0 {
        candidates := candidates + GeneratedCandidates(responses);
      }
    }
  }
}
