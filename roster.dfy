/** The records the auto-prompter keeps (candidates, battles, rating snapshots)
    and the pure list transformations applied to them. */
module Roster {
  import opened Wrappers
  import opened Settings
  import opened Elo

  /** A prompt under evaluation. Ids are not unique: generated candidates are
      numbered from 0 and an empty candidate takes the roster's length. */
  datatype Candidate = Candidate(content: string, rating: real, sd: real, id: nat)

  /** The result of a round or of a battle: `'a'`, `'b'` or `'draw'`. */
  datatype Verdict = A | B | Draw

  datatype Generation = Generation(a: string, b: string)

  /** A round; `result` is `None` (the source's `null`) until it is settled. */
  datatype Round = Round(testCase: string, generation: Generation, result: Option<Verdict>)

  /** A battle between the candidates with ids `a` and `b`; an id is `None` where the
      source stores `Number(undefined)`, which equals no id. */
  datatype Battle = Battle(a: Option<nat>, b: Option<nat>, rounds: seq<Round>, winner: Option<Verdict>)

  datatype RatingEntry = RatingEntry(rating: real, sd: real, promptId: nat)

  datatype Snapshot = Snapshot(iteration: nat, ratings: seq<RatingEntry>)

  // ---------------------------------------------------------------------------
  // Filtering, as `Array.prototype.filter` does it

  function Filter<T(==, !new)>(keep: T -> bool, s: seq<T>): (r: seq<T>)
    ensures |r| <= |s|
    ensures forall x :: x in r <==> x in s && keep(x)
  {
    if s == [] then [] else (if keep(s[0]) then [s[0]] else []) + Filter(keep, s[1..])
  }

  /** Filtering distributes over concatenation, so it keeps the survivors' order. */
  lemma {:induction false} FilterAppend<T(!new)>(keep: T -> bool, s: seq<T>, t: seq<T>)
    ensures Filter(keep, s + t) == Filter(keep, s) + Filter(keep, t)
  {
    if s == [] {
      assert s + t == t;
    } else {
      assert (s + t)[0] == s[0] && (s + t)[1..] == s[1..] + t;
      FilterAppend(keep, s[1..], t);
    }
  }

  /** A sequence all of whose elements are kept comes back unchanged. */
  lemma {:induction false} FilterKeepsAll<T(!new)>(keep: T -> bool, s: seq<T>)
    requires forall x :: x in s ==> keep(x)
    ensures Filter(keep, s) == s
  {
    if s != [] {
      FilterKeepsAll(keep, s[1..]);
    }
  }

  function OtherCandidate(id: nat): Candidate -> bool
  {
    (c: Candidate) => c.id != id
  }

  function NotFoughtBy(id: nat): Battle -> bool
  {
    (b: Battle) => b.a != Some(id) && b.b != Some(id)
  }

  function OtherPrompt(id: nat): RatingEntry -> bool
  {
    (e: RatingEntry) => e.promptId != id
  }

  // ---------------------------------------------------------------------------
  // Rating snapshots

  function EntryOf(c: Candidate): RatingEntry
  {
    RatingEntry(c.rating, c.sd, c.id)
  }

  /** The `ratings` of a snapshot: one entry per candidate, in roster order. */
  function RatingsOf(cands: seq<Candidate>): (r: seq<RatingEntry>)
    ensures |r| == |cands|
    ensures forall i :: 0 <= i < |cands| ==>
              r[i].rating == cands[i].rating && r[i].sd == cands[i].sd && r[i].promptId == cands[i].id
  {
    if cands == [] then [] else [EntryOf(cands[0])] + RatingsOf(cands[1..])
  }

  /** Removing a candidate and then taking a snapshot gives the same entries as
      taking the snapshot and then dropping the candidate's entries. */
  lemma {:induction false} RatingsOfRemoval(cands: seq<Candidate>, id: nat)
    ensures RatingsOf(Filter(OtherCandidate(id), cands)) == Filter(OtherPrompt(id), RatingsOf(cands))
  {
    if cands != [] {
      RatingsOfRemoval(cands[1..], id);
      assert RatingsOf(cands)[1..] == RatingsOf(cands[1..]);
      if cands[0].id != id {
        assert Filter(OtherCandidate(id), cands) == [cands[0]] + Filter(OtherCandidate(id), cands[1..]);
      }
    }
  }

  /** The invariant of the history log: entry `i` records iteration `i`. */
  ghost predicate Numbered(history: seq<Snapshot>)
  {
    forall i :: 0 <= i < |history| ==> history[i].iteration == i
  }

  /** The history with one candidate's entries dropped from every snapshot. */
  function DropFromHistory(history: seq<Snapshot>, id: nat): (r: seq<Snapshot>)
    ensures |r| == |history|
    ensures forall i :: 0 <= i < |history| ==>
              r[i].iteration == history[i].iteration && r[i].ratings == Filter(OtherPrompt(id), history[i].ratings)
    ensures Numbered(history) ==> Numbered(r)
  {
    if history == [] then []
    else [history[0].(ratings := Filter(OtherPrompt(id), history[0].ratings))] + DropFromHistory(history[1..], id)
  }

  // ---------------------------------------------------------------------------
  // Candidates

  /** Every `sd` is at or above the floor, as every operation of the model keeps it. */
  ghost predicate SdAboveFloor(cands: seq<Candidate>)
  {
    forall i :: 0 <= i < |cands| ==> cands[i].sd >= SdFloor
  }

  /** `resetCandidatesRatingAndSD`: every candidate back to the starting rating and `sd`,
      content and id kept. */
  function ResetRatings(cands: seq<Candidate>): (r: seq<Candidate>)
    ensures |r| == |cands|
    ensures forall i :: 0 <= i < |cands| ==>
              r[i].content == cands[i].content && r[i].id == cands[i].id &&
              r[i].rating == StartingRating && r[i].sd == StartingSD
    ensures SdAboveFloor(r)
  {
    if cands == [] then [] else [cands[0].(rating := StartingRating, sd := StartingSD)] + ResetRatings(cands[1..])
  }

  /** Index of the first candidate with the given id (`findIndex`); `None` for a
      missing id or for `Number(undefined)`. */
  function FindIndex(cands: seq<Candidate>, id: Option<nat>): (r: Option<nat>)
    ensures r.Some? ==> id.Some? && r.value < |cands| && cands[r.value].id == id.value &&
                        forall j :: 0 <= j < r.value ==> cands[j].id != id.value
    ensures r.None? ==> id.None? || forall j :: 0 <= j < |cands| ==> cands[j].id != id.value
  {
    if id.None? || cands == [] then None
    else if cands[0].id == id.value then Some(0)
    else match FindIndex(cands[1..], id)
      case None => None
      case Some(k) => Some(k + 1)
  }

  function RatingSum(cands: seq<Candidate>): real
  {
    if cands == [] then 0.0 else cands[0].rating + RatingSum(cands[1..])
  }

  lemma {:induction false} RatingSumUpdate(cands: seq<Candidate>, i: nat, c: Candidate)
    requires i < |cands|
    ensures RatingSum(cands[i := c]) == RatingSum(cands) - cands[i].rating + c.rating
  {
    if i > 0 {
      assert cands[i := c][1..] == cands[1..][i - 1 := c];
      RatingSumUpdate(cands[1..], i - 1, c);
    }
  }

  // ---------------------------------------------------------------------------
  // Candidate generation

  /** The request made for the `i`-th generated candidate: the system prompts are
      used round-robin (none when the list is empty, as `x[i % 0]` is undefined),
      and only the first request is made at temperature 0. */
  datatype Request = Request(systemMessage: Option<string>, temperature: real)

  function GenerationRequests(amount: nat, prompts: seq<string>, temperature: real): (r: seq<Request>)
    ensures |r| == amount
    ensures amount > 0 ==> r[0].temperature == 0.0
    ensures forall i :: 0 < i < amount ==> r[i].temperature == temperature
    ensures prompts == [] ==> forall i :: 0 <= i < amount ==> r[i].systemMessage == None
    ensures forall i :: 0 <= i < amount && r[i].systemMessage.Some? ==> r[i].systemMessage.value in prompts
    ensures forall j :: 0 <= j < amount && j < |prompts| ==> r[j].systemMessage == Some(prompts[j])
    ensures prompts != [] ==>
              forall i :: 0 <= i < amount - |prompts| ==> r[i].systemMessage == r[i + |prompts|].systemMessage
  {
    RoundRobin(amount, prompts);
    seq(amount, i requires 0 <= i < amount =>
      Request(if prompts == [] then None else Some(prompts[i % |prompts|]), if i == 0 then 0.0 else temperature))
  }

  /** Round-robin: the first `|prompts|` positions pick every system prompt in turn, and
      positions `|prompts|` apart pick the same one. */
  lemma RoundRobin(amount: nat, prompts: seq<string>)
    ensures forall j :: 0 <= j < |prompts| ==> j % |prompts| == j
    ensures prompts != [] ==> forall i :: 0 <= i < amount - |prompts| ==> (i + |prompts|) % |prompts| == i % |prompts|
  {
    var n := |prompts|;
    forall j | 0 <= j < n
      ensures j % n == j
    {
      ModSmall(j, n);
    }
    forall i | 0 <= i < amount - n && n > 0
      ensures (i + n) % n == i % n
    {
      ModShift(i, n);
    }
  }

  lemma ModSmall(j: nat, n: nat)
    requires j < n
    ensures j % n == j
  {
  }

  lemma ModShift(i: nat, n: nat)
    requires n > 0
    ensures (i + n) % n == i % n
  {
    var q, r := i / n, i % n;
    assert i == n * q + r;
    assert i + n == n * (q + 1) + r;
    ModUnique(i + n, n, q + 1, r);
  }

  /** The remainder is the only `r` in `[0, n)` with `x == n * q + r`. */
  lemma ModUnique(x: int, n: int, q: int, r: int)
    requires 0 <= r < n
    requires x == n * q + r
    ensures x % n == r
  {
    var q', r' := x / n, x % n;
    assert n * q' + r' == x;
    var k := q - q';
    assert n * k == r' - r;
    if k >= 1 {
      assert false;
    } else if k <= -1 {
      assert false;
    }
  }

  function NonEmpty(): string -> bool
  {
    (s: string) => s != ""
  }

  /** The candidates appended by `generatePromptCandidates` for the fetched responses
      (a failed request yields `''`): empty responses are dropped and the rest are
      numbered from 0 with the starting rating and `sd`. */
  function GeneratedCandidates(responses: seq<string>): (r: seq<Candidate>)
    ensures var prompts := Filter(NonEmpty(), responses);
            && |r| == |prompts|
            && forall i :: 0 <= i < |r| ==>
                 r[i] == Candidate(prompts[i], StartingRating, StartingSD, i) && r[i].content != ""
    ensures SdAboveFloor(r)
  {
    var prompts := Filter(NonEmpty(), responses);
    assert forall i :: 0 <= i < |prompts| ==> prompts[i] in prompts;
    seq(|prompts|, i requires 0 <= i < |prompts| => Candidate(prompts[i], StartingRating, StartingSD, i))
  }

  // ---------------------------------------------------------------------------
  // Judging and the winner tally

  /** `getScore`: the judge's token `'A'` scores 1, `'B'` scores 0, anything else
      (including no token at all) 0.5. */
  function ScoreOf(token: Option<string>): (s: real)
    ensures s == 1.0 <==> token == Some("A")
    ensures s == 0.0 <==> token == Some("B")
    ensures s == 0.5 <==> token != Some("A") && token != Some("B")
  {
    if token == Some("A") then 1.0 else if token == Some("B") then 0.0 else 0.5
  }

  /** The round result recorded for a score. */
  function ResultOf(score: real): (v: Verdict)
    ensures v == A <==> score == 1.0
    ensures v == B <==> score == 0.0
  {
    if score == 1.0 then A else if score == 0.0 then B else Draw
  }

  /** `rounds.filter(round => round.result === v).length`. */
  function CountResult(rounds: seq<Round>, v: Verdict): (n: nat)
    ensures n <= |rounds|
  {
    if rounds == [] then 0
    else CountResult(rounds[..|rounds| - 1], v) + (if rounds[|rounds| - 1].result == Some(v) then 1 else 0)
  }

  /** The battle winner: the side with strictly more round wins; draw rounds count for
      neither side. */
  function Winner(rounds: seq<Round>): (w: Verdict)
    ensures w == A <==> CountResult(rounds, A) > CountResult(rounds, B)
    ensures w == B <==> CountResult(rounds, A) < CountResult(rounds, B)
  {
    var a, b := CountResult(rounds, A), CountResult(rounds, B);
    if a > b then A else if a < b then B else Draw
  }

  /** A drawn (or unsettled) round changes no tally, so it never changes the winner. */
  lemma WinnerIgnoresDraws(rounds: seq<Round>, r: Round)
    requires r.result == Some(Draw) || r.result == None
    ensures Winner(rounds + [r]) == Winner(rounds)
  {
    assert (rounds + [r])[..|rounds|] == rounds;
  }

  function CountToken(tokens: seq<Option<string>>, t: string): nat
  {
    if tokens == [] then 0
    else CountToken(tokens[..|tokens| - 1], t) + (if tokens[|tokens| - 1] == Some(t) then 1 else 0)
  }

  /** The rounds of a battle once all are settled, in test-case order: round `i` keeps
      its test case and generations and records the result of the judge's `i`-th token. */
  function SettledRounds(testCases: seq<string>, generations: seq<Generation>, tokens: seq<Option<string>>): (r: seq<Round>)
    requires |generations| == |testCases| && |tokens| == |testCases|
    ensures |r| == |testCases|
  {
    seq(|testCases|, i requires 0 <= i < |testCases| =>
      Round(testCases[i], generations[i], Some(ResultOf(ScoreOf(tokens[i])))))
  }

  /** Rounds written one by one in test-case order are the settled rounds. */
  lemma SettledRoundsByElement(testCases: seq<string>, generations: seq<Generation>,
                               tokens: seq<Option<string>>, rounds: seq<Round>)
    requires |generations| == |testCases| && |tokens| == |testCases| && |rounds| == |testCases|
    requires forall j :: 0 <= j < |rounds| ==>
               rounds[j] == Round(testCases[j], generations[j], Some(ResultOf(ScoreOf(tokens[j]))))
    ensures rounds == SettledRounds(testCases, generations, tokens)
  {
  }

  /** A settled round is won by A exactly when the judge answered `'A'` for it, by B
      exactly when it answered `'B'`, and drawn otherwise; so the battle's round tallies
      are the judge's token counts and it goes to the side the judge named more often. */
  lemma {:induction false} SettledRoundsTally(testCases: seq<string>, generations: seq<Generation>,
                                              tokens: seq<Option<string>>)
    requires |generations| == |testCases| && |tokens| == |testCases|
    ensures var r := SettledRounds(testCases, generations, tokens);
            forall i :: 0 <= i < |r| ==>
              && (r[i].result == Some(A) <==> tokens[i] == Some("A"))
              && (r[i].result == Some(B) <==> tokens[i] == Some("B"))
              && (r[i].result == Some(Draw) <==> tokens[i] != Some("A") && tokens[i] != Some("B"))
    ensures CountResult(SettledRounds(testCases, generations, tokens), A) == CountToken(tokens, "A")
    ensures CountResult(SettledRounds(testCases, generations, tokens), B) == CountToken(tokens, "B")
    ensures Winner(SettledRounds(testCases, generations, tokens)) == A <==> CountToken(tokens, "A") > CountToken(tokens, "B")
    ensures Winner(SettledRounds(testCases, generations, tokens)) == B <==> CountToken(tokens, "A") < CountToken(tokens, "B")
    decreases |testCases|
  {
    var n := |testCases|;
    var r := SettledRounds(testCases, generations, tokens);
    if n > 0 {
      SettledRoundsTally(testCases[..n - 1], generations[..n - 1], tokens[..n - 1]);
      assert r[..n - 1] == SettledRounds(testCases[..n - 1], generations[..n - 1], tokens[..n - 1]);
    }
  }

  // ---------------------------------------------------------------------------
  // Settling rounds

  /** The roster after one settled round between the candidates at `ia` and `ib`:
      both ratings move by the Elo update computed from their ratings before the
      round, and both `sd` values shrink, whatever the score. */
  function SettleRound(E: (real, real) -> real, cands: seq<Candidate>, ia: nat, ib: nat,
                       score: real, testCaseCount: nat): seq<Candidate>
    requires ia < |cands| && ib < |cands|
    requires testCaseCount > 0
  {
    var (ra, rb) := UpdateElo(E, cands[ia].rating, cands[ib].rating, score, BattleValue, testCaseCount);
    cands[ia := cands[ia].(rating := ra, sd := ShrinkSd(cands[ia].sd, LearningRate))]
         [ib := cands[ib].(rating := rb, sd := ShrinkSd(cands[ib].sd, LearningRate))]
  }

  /** The writes of a round in the source's order (rating of A, rating of B, `sd` of A,
      `sd` of B) give the same roster as `SettleRound` when the fighters differ. */
  lemma SettleRoundInWriteOrder(E: (real, real) -> real, cands: seq<Candidate>, ia: nat, ib: nat,
                                score: real, testCaseCount: nat)
    requires ia < |cands| && ib < |cands| && ia != ib
    requires testCaseCount > 0
    ensures var (ra, rb) := UpdateElo(E, cands[ia].rating, cands[ib].rating, score, BattleValue, testCaseCount);
            var c1 := cands[ia := cands[ia].(rating := ra)];
            var c2 := c1[ib := c1[ib].(rating := rb)];
            var c3 := c2[ia := c2[ia].(sd := ShrinkSd(c2[ia].sd, LearningRate))];
            c3[ib := c3[ib].(sd := ShrinkSd(c3[ib].sd, LearningRate))] == SettleRound(E, cands, ia, ib, score, testCaseCount)
  {
  }

  /** The roster after the rounds with the given scores, applied one at a time in order. */
  function SettleAll(E: (real, real) -> real, cands: seq<Candidate>, ia: nat, ib: nat,
                     scores: seq<real>, testCaseCount: nat): (r: seq<Candidate>)
    requires ia < |cands| && ib < |cands|
    requires testCaseCount > 0
    ensures |r| == |cands|
  {
    if scores == [] then cands
    else SettleRound(E, SettleAll(E, cands, ia, ib, scores[..|scores| - 1], testCaseCount), ia, ib,
                     scores[|scores| - 1], testCaseCount)
  }

  /** One more score settles one more round on top of the earlier ones. */
  lemma SettleAllSnoc(E: (real, real) -> real, cands: seq<Candidate>, ia: nat, ib: nat,
                      scores: seq<real>, score: real, testCaseCount: nat)
    requires ia < |cands| && ib < |cands|
    requires testCaseCount > 0
    ensures SettleAll(E, cands, ia, ib, scores + [score], testCaseCount)
            == SettleRound(E, SettleAll(E, cands, ia, ib, scores, testCaseCount), ia, ib, score, testCaseCount)
  {
    assert (scores + [score])[..|scores|] == scores;
  }

  function Scores(tokens: seq<Option<string>>): (r: seq<real>)
    ensures |r| == |tokens|
    ensures forall i :: 0 <= i < |tokens| ==> r[i] == ScoreOf(tokens[i])
  {
    seq(|tokens|, i requires 0 <= i < |tokens| => ScoreOf(tokens[i]))
  }

  /** Settling touches only the two fighters, and of them only rating and `sd`. */
  lemma {:induction false} SettleAllFrame(E: (real, real) -> real, cands: seq<Candidate>, ia: nat, ib: nat,
                                          scores: seq<real>, testCaseCount: nat)
    requires ia < |cands| && ib < |cands| && ia != ib
    requires testCaseCount > 0
    ensures var r := SettleAll(E, cands, ia, ib, scores, testCaseCount);
            && (forall k :: 0 <= k < |cands| && k != ia && k != ib ==> r[k] == cands[k])
            && (forall k :: 0 <= k < |cands| ==> r[k].id == cands[k].id && r[k].content == cands[k].content)
  {
    if scores != [] {
      SettleAllFrame(E, cands, ia, ib, scores[..|scores| - 1], testCaseCount);
    }
  }

  /** Settling conserves the sum of all ratings: every round is zero-sum. */
  lemma {:induction false} SettleAllConservesRating(E: (real, real) -> real, cands: seq<Candidate>, ia: nat, ib: nat,
                                                    scores: seq<real>, testCaseCount: nat)
    requires IsExpectedScore(E)
    requires ia < |cands| && ib < |cands| && ia != ib
    requires testCaseCount > 0
    ensures RatingSum(SettleAll(E, cands, ia, ib, scores, testCaseCount)) == RatingSum(cands)
  {
    if scores != [] {
      var prev := SettleAll(E, cands, ia, ib, scores[..|scores| - 1], testCaseCount);
      SettleAllConservesRating(E, cands, ia, ib, scores[..|scores| - 1], testCaseCount);
      var score := scores[|scores| - 1];
      var (ra, rb) := UpdateElo(E, prev[ia].rating, prev[ib].rating, score, BattleValue, testCaseCount);
      UpdateEloZeroSum(E, prev[ia].rating, prev[ib].rating, score, BattleValue, testCaseCount);
      var ca := prev[ia].(rating := ra, sd := ShrinkSd(prev[ia].sd, LearningRate));
      var cb := prev[ib].(rating := rb, sd := ShrinkSd(prev[ib].sd, LearningRate));
      RatingSumUpdate(prev, ia, ca);
      RatingSumUpdate(prev[ia := ca], ib, cb);
    }
  }

  /** After settling, no `sd` has grown and every `sd` is still at or above the floor;
      after at least one round both fighters' `sd` are at or above it whatever they were. */
  lemma {:induction false} SettleAllShrinksSd(E: (real, real) -> real, cands: seq<Candidate>, ia: nat, ib: nat,
                                              scores: seq<real>, testCaseCount: nat)
    requires ia < |cands| && ib < |cands| && ia != ib
    requires testCaseCount > 0
    ensures var r := SettleAll(E, cands, ia, ib, scores, testCaseCount);
            && (scores != [] ==> r[ia].sd >= SdFloor && r[ib].sd >= SdFloor)
            && (SdAboveFloor(cands) ==>
                  SdAboveFloor(r) && forall k :: 0 <= k < |cands| ==> r[k].sd <= cands[k].sd)
  {
    if scores != [] {
      SettleAllShrinksSd(E, cands, ia, ib, scores[..|scores| - 1], testCaseCount);
    }
  }
}
