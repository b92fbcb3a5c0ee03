# prompts-royale: a Dafny model of the rating tournament

prompts-royale ranks prompt candidates for a language-model use case. It pits them
against each other in battles judged by another model. Each candidate has an Elo
`rating` and an uncertainty `sd`. A battle works like this:

- Two fighters are picked by Monte-Carlo sampling of the candidates' rating beliefs,
  followed by a roulette draw over the win counts.
- One round is played per test case.
- After every round, both ratings move by the Elo update and both `sd` values shrink
  toward a floor of 125.

The battle, its winner and a rating snapshot are then recorded.

This project models that core in Dafny:

- **`Elo`** (`elo.dfy`): `expectedScore`, `updateElo` and the `sd` shrink, on real
  numbers.
  - `expectedScore` is a parameter `E`, known only through the predicate
    `IsExpectedScore`.
  - A rational curve of the same shape shows that the predicate can be met.
- **`Roster`** (`roster.dfy`): the records the prompter keeps (candidates, rounds,
  battles, snapshots) and the list transformations applied to them.
  - Filtering, snapshots and the history.
  - `findIndex`, the judge's score and the round result, the winner tally.
  - The settlement of rounds as a function of the roster.
  - The requests and the append step of candidate generation.
- **`Matchmaking`** (`matchmaking.dfy`): the Monte-Carlo win count and
  `randomlySelectFromDistribution`.
  - Each is an imperative loop proved against a recursive specification.
  - The Gaussian samples and the uniform draws are inputs.
- **`Prompter`** (`prompter.dfy`): the class `AutoPrompter`.
  - Its fields are the synced lists `candidates`, `testCases`, `battles` and
    `ratingHistory`.
  - Its methods update them in place: `runBattle` (the round-settlement loop, the
    winner, the battle and the snapshot), `takeSnapshotOfRatings`, `removeCandidate`,
    `resetCandidatesRatingAndSD`, `createEmptyCandidate`, `clearCandidates`,
    `clearBattles` and the append step of `generatePromptCandidates`.
  - The class invariant says three things. `expectedScore` has its properties. Every
    snapshot's `iteration` is its index. Every `sd` is at or above 125.
- **`Scheduler`** (`scheduler.dfy`): the class `BattleLoop`, for `runNumberOfBattles`
  and `stopRunningBattles`.
  - It holds the counter `battlesToRun` and the flag `stopBattle`.
  - `runBattle` is abstract there: launching a battle only increments `launched`.
  - The arrival of a stop request is an input: the wave during which it comes.
- **`TrimTag`** (`trim.dfy`): the `trim` template tag. It interpolates, splits into
  lines, finds the smallest indentation of a non-blank line, slices it off every line
  and trims the ends.
- **`Migration`** (`migration.dfy`): `runMigrations`, which upgrades version-1 test
  cases (bare strings) to version-2 records.
- **`Settings`** (`settings.dfy`): the defaults of the settings store that the
  modelled operations read.

Settings are the store's defaults:

| setting | value |
|---|---|
| starting rating | 1000 |
| starting `sd` | 350 |
| battle value | 100 |
| learning rate | 0.96 |
| simultaneous battles | 1 |

The sample amount (10000 by default) is the number of Monte-Carlo sample vectors,
which are an input of the model.

### Behaviour worth knowing

- **Draws move ratings.** A drawn round still goes through the Elo update and the
  `sd` shrink (composables/auto-prompter.ts:209-219). So a draw between unequal
  ratings moves both of them (`Elo.UpdateEloDrawBetweenUnequals`), and both `sd`
  values shrink.
- **Argument order of `expectedScore`.** `expectedScore(x, y)` is
  `1 / (1 + 10^((x - y) / 400))`, the expected score of the side rated `y`. It falls
  as `x` rises. `updateElo` calls it as `expectedScore(ratingB, ratingA)` for A
  (composables/auto-prompter.ts:299).
- **The battle counter can go negative.** When `stopRunningBattles` runs while a wave
  is in flight, it zeroes `battlesToRun` (composables/auto-prompter.ts:264).
  - When the wave's battles still complete, the wave then subtracts its size, so the
    counter ends at minus that size (composables/auto-prompter.ts:249).
  - The stop also aborts the wave's model calls (composables/auto-prompter.ts:262,
    119, 134). When that makes a battle reject, the `await` at
    composables/auto-prompter.ts:247 throws. The decrement and the lowering of the
    flag are then skipped: the counter stays at 0 and the flag stays raised, so the
    next run stops after its first wave.
  - `Scheduler.BattleLoop.RunNumberOfBattles` states both outcomes.
  - Without a stop, the counter never goes negative (`Scheduler.UninterruptedRun`).

## Model

| member | source | states |
|---|---|---|
| Elo.LogisticIsExpectedScore | composables/auto-prompter.ts:346-348 | a curve of the logistic shape meets every property assumed of `expectedScore` (one half between equals, complementary, strictly between 0 and 1, falling in the opponent's rating), so the assumptions are consistent |
| Elo.UpdateElo | composables/auto-prompter.ts:297-307 | definition of `updateElo`; its properties are in the rows `Elo.UpdateEloZeroSum` to `Elo.UpdateEloDefaultWin` |
| Elo.UpdateEloZeroSum | composables/auto-prompter.ts:297-307 | A moves by `v (s - E(rB, rA))` and B by `v (1 - s - E(rA, rB))` with `v = battleValue / testCases.length`; the two moves are equal and opposite, so the rating sum is conserved |
| Elo.UpdateEloDrawBetweenEquals | composables/auto-prompter.ts:303-304 | a drawn round (score 0.5) between equally rated candidates leaves both ratings unchanged |
| Elo.UpdateEloDrawBetweenUnequals | composables/auto-prompter.ts:303-304 | a drawn round between unequal ratings still moves them: the lower-rated side gains, the higher-rated side loses |
| Elo.UpdateEloWinnerGains | composables/auto-prompter.ts:303-304 | the winner of a round (score 1 for A, 0 for B) gains rating and the loser loses it, whatever the ratings |
| Elo.UpdateEloDefaultWin | composables/auto-prompter.ts:297-307 | with the default battle value and one test case, a win between two 1000-rated candidates gives 1050 and 950 |
| Elo.ShrinkSd | composables/auto-prompter.ts:218-219 | `max(sd * learningRate, 125)` is never below 125 and, for `sd >= 125` and a rate of at most 1, never above `sd` |
| Elo.ShrinkSdTimesNonIncreasing | composables/auto-prompter.ts:218-219 | over repeated rounds `sd` is non-increasing and stays at or above 125 |
| Elo.ShrinkSdLinearBound | composables/auto-prompter.ts:218-219 | at rate `1 - d` each round takes at least `125 d` off an `sd` above the floor |
| Elo.ShrinkSdReachesFloor | composables/auto-prompter.ts:218-219 | at a rate below 1, `sd` reaches exactly 125 after finitely many rounds (any `n` with `sd <= 125 (1 + n d)`) |
| Roster.Filter | composables/auto-prompter.ts:310-316 | `filter` keeps exactly the elements that satisfy the test and never lengthens the list |
| Roster.FilterAppend | composables/auto-prompter.ts:310-316 | filtering distributes over concatenation, so the survivors keep their order |
| Roster.FilterKeepsAll | composables/auto-prompter.ts:310-316 | a list all of whose elements pass the test is returned unchanged |
| Roster.RatingsOf | composables/auto-prompter.ts:142-146 | a snapshot has one entry per candidate, in roster order, with its rating, `sd` and id |
| Roster.RatingsOfRemoval | composables/auto-prompter.ts:309-318 | removing a candidate and then taking a snapshot gives the entries of a snapshot taken before, with the candidate's entries dropped |
| Roster.DropFromHistory | composables/auto-prompter.ts:314-317 | every snapshot keeps its iteration and loses exactly the entries of the removed id; the history keeps its length and its numbering |
| Roster.ResetRatings | composables/auto-prompter.ts:267-274 | every candidate gets the starting rating and `sd` and keeps its content and id |
| Roster.FindIndex | composables/auto-prompter.ts:201-202 | `findIndex` returns the first position holding the id, and nothing when no candidate has it or the id is `Number(undefined)` |
| Roster.GenerationRequests | composables/auto-prompter.ts:43-49 | one request per wanted candidate; the first has temperature 0 and the rest the given temperature; with no system prompts none is sent, otherwise every prompt sent is one of the list, the first `len` requests use each prompt in list order, and requests `len` apart use the same one |
| Roster.GeneratedCandidates | composables/auto-prompter.ts:62-73 | empty responses are dropped and the rest become candidates numbered 0..k-1, in order, with the starting rating and `sd` |
| Roster.ScoreOf | composables/auto-prompter.ts:122-123 | token `'A'` scores 1, `'B'` scores 0, anything else (including no token) 0.5, each as an if-and-only-if |
| Roster.ResultOf | composables/auto-prompter.ts:221 | the round result is `'a'` exactly for score 1 and `'b'` exactly for score 0, otherwise `'draw'` |
| Roster.CountResult | composables/auto-prompter.ts:230-231 | `filter(...).length` counts at most all the rounds; the counts are tied to the judge's tokens in `Roster.SettledRoundsTally` |
| Roster.Winner | composables/auto-prompter.ts:230-232 | the winner is `'a'` iff more rounds are `'a'` than `'b'`, `'b'` iff fewer, otherwise `'draw'` |
| Roster.WinnerIgnoresDraws | composables/auto-prompter.ts:230-232 | a drawn or unsettled round never changes the winner |
| Roster.SettledRoundsTally | composables/auto-prompter.ts:221-232 | a settled round is `'a'` exactly when the judge's token was `'A'`, `'b'` exactly when it was `'B'`, and `'draw'` otherwise; so the `'a'` and `'b'` round counts equal the number of `'A'` and `'B'` tokens, and the battle goes to the side the judge named more often |
| Roster.SettleRound | composables/auto-prompter.ts:209-219 | definition of one round's effect on the roster; its properties are in the rows `Roster.SettleRoundInWriteOrder` to `Roster.SettleAllShrinksSd` |
| Roster.SettleAll | composables/auto-prompter.ts:198-226 | the rounds of a battle settled in test-case order keep the roster's length; its properties are in the rows `Roster.SettleAllFrame` to `Roster.SettleAllShrinksSd` |
| Roster.SettleRoundInWriteOrder | composables/auto-prompter.ts:209-219 | the source's four writes (rating A, rating B, `sd` A, `sd` B) give the same roster as updating both fighters together |
| Roster.SettleAllFrame | composables/auto-prompter.ts:199-226 | settling a battle's rounds touches only the two fighters, and of them only rating and `sd` |
| Roster.SettleAllConservesRating | composables/auto-prompter.ts:209-216 | settling all rounds of a battle conserves the sum of the roster's ratings |
| Roster.SettleAllShrinksSd | composables/auto-prompter.ts:218-219 | after settling, no `sd` has grown, every `sd` is still at or above 125, and after one round both fighters are at or above 125 whatever they were |
| Matchmaking.InsertKey | composables/auto-prompter.ts:154-157 | adding a key to an ascending key list keeps it strictly ascending and adds exactly that key |
| Matchmaking.Keys | composables/auto-prompter.ts:154-157 | the distribution has exactly one key per distinct candidate id, enumerated in ascending order |
| Matchmaking.FirstMax | composables/auto-prompter.ts:170-171 | the credited key holds the maximum sample and no earlier key holds it |
| Matchmaking.TallySum | composables/auto-prompter.ts:161-173 | every iteration credits exactly one key, so the counts add up to the number of iterations |
| Matchmaking.CountWins | composables/auto-prompter.ts:161-173 | the counting loop computes the tally, and its counts sum to `sampleAmount` |
| Matchmaking.RandomlySelectFromDistribution | composables/auto-prompter.ts:177-186 | the accumulation loop returns the first non-excluded key at which the running sum reaches the draw, or undefined |
| Matchmaking.RouletteAvoidsExcluded | composables/auto-prompter.ts:178-185 | the selection is a key of the distribution and never the excluded key |
| Matchmaking.RouletteHits | composables/auto-prompter.ts:179-185 | a draw of at most the remaining mass selects a key when a non-excluded key exists, and a draw of at least 1 selects a key with a positive count |
| Matchmaking.RouletteMisses | composables/auto-prompter.ts:180-186 | a draw beyond the remaining mass selects nothing |
| Matchmaking.MassIsTotalLessExcluded | composables/auto-prompter.ts:178-179 | the draw's bound `sampleAmount - excludedValue` is exactly the total count of the non-excluded keys |
| Matchmaking.PairingDistinct | composables/auto-prompter.ts:188-189 | the two fighters are ids of the roster, and `b` is never `a` |
| Matchmaking.PairingFound | composables/auto-prompter.ts:177-189 | with a candidate and a draw in range, `a` is found; when another id exists and `b`'s draw is in range, `b` is found too |
| Matchmaking.PairingSingleId | composables/auto-prompter.ts:188-189 | with one distinct id, `b` is always undefined |
| Prompter.AutoPrompter.constructor | composables/auto-prompter.ts:5-18 | the lists start empty, apart from the test cases |
| Prompter.AutoPrompter.TakeSnapshotOfRatings | composables/auto-prompter.ts:139-148 | appends one snapshot numbered by the previous history length, with one entry per candidate in order; nothing else changes |
| Prompter.AutoPrompter.UpdateRatings | composables/auto-prompter.ts:209-219 | one round's writes: both ratings by the Elo update, then both `sd` values shrunk; the other lists are unchanged and the `sd` floor is kept |
| Prompter.AutoPrompter.PlayRounds | composables/auto-prompter.ts:198-226 | the loop settles the rounds one at a time in test-case order; each round writes both fighters and then records its own result; the other lists are unchanged and the `sd` floor is kept |
| Prompter.AutoPrompter.SettleRounds | composables/auto-prompter.ts:198-228 | settling a battle's rounds keeps the class invariant, conserves the rating sum and grows no `sd` |
| Prompter.AutoPrompter.RunBattle | composables/auto-prompter.ts:150-238 | fails, with no state changed, exactly when there is a test case and a drawn fighter is missing. Otherwise it settles every round and appends one battle (its rounds and their winner) and one snapshot. The rating sum is conserved and no `sd` grows |
| Prompter.AutoPrompter.RemoveCandidate | composables/auto-prompter.ts:309-318 | drops the id's candidates, the battles it fought and its snapshot entries; the rest keeps its order; the history keeps its length and numbering |
| Prompter.AutoPrompter.ResetCandidatesRatingAndSD | composables/auto-prompter.ts:267-274 | every candidate back to the starting rating and `sd`; the other lists unchanged |
| Prompter.AutoPrompter.CreateEmptyCandidate | composables/auto-prompter.ts:276-284 | appends an empty prompt with the starting rating and `sd` and id equal to the previous roster length |
| Prompter.AutoPrompter.ClearCandidates | composables/auto-prompter.ts:286-290 | empties the roster, the battles and the history; test cases kept |
| Prompter.AutoPrompter.ClearBattles | composables/auto-prompter.ts:292-295 | empties the battles and the history; roster and test cases kept |
| Prompter.AutoPrompter.GeneratePromptCandidates | composables/auto-prompter.ts:62-74 | appends the generated candidates after the existing roster; nothing else changes |
| Scheduler.WaveSize | composables/auto-prompter.ts:245-247 | a wave launches at most `simultaneousBattles` and at most the remaining budget, and at least one when both are positive |
| Scheduler.LaunchedClosedForm | composables/auto-prompter.ts:243-249 | without a stop, `w` waves launch `min(amount, simultaneousBattles * w)` battles |
| Scheduler.DefaultWidthLaunchesAll | composables/auto-prompter.ts:243-249 | with the default of one simultaneous battle, `w` waves launch `min(w, amount)` battles, one per wave |
| Scheduler.LaunchedWholeBudget | composables/auto-prompter.ts:242-249 | no run launches more than its budget, and with a width of at least 1 the whole loop launches exactly `amount` |
| Scheduler.UninterruptedRun | composables/auto-prompter.ts:242-249 | without a stop, the counter is never negative and ends at zero |
| Scheduler.StopWave | composables/auto-prompter.ts:251-255 | a run stops early only during one of its own waves |
| Scheduler.BattleLoop.constructor | composables/auto-prompter.ts:20-25 | the counter starts at 0 and the flag lowered |
| Scheduler.BattleLoop.StopRunningBattles | composables/auto-prompter.ts:260-265 | raises the flag and zeroes the counter |
| Scheduler.BattleLoop.RunNumberOfBattles | composables/auto-prompter.ts:240-258 | launches the waves of the closed form until the budget or a stop; the flag is checked only after a wave, then lowered, and the loop returns; a stop during a wave leaves the counter at minus that wave's size when the wave completes; when the aborted wave rejects, the run ends at once with the counter at 0 and the flag still raised |
| TrimTag.InterleaveLength | utils/trim.ts:2-4 | interpolation loses and invents no text: its length is the total of all parts |
| TrimTag.Interpolate | utils/trim.ts:2-4 | the loop builds `str[0] + args[0] + str[1] + … + str[n]` |
| TrimTag.Split | utils/trim.ts:6 | `split('\n')` yields at least one line and no line holds a line feed |
| TrimTag.JoinSplit | utils/trim.ts:6 | joining the split lines with line feeds gives the text back |
| TrimTag.SplitJoin | utils/trim.ts:6 | splitting joined lines that hold no line feed gives the lines back |
| TrimTag.FirstNonWs | utils/trim.ts:9 | `search(/\S/)` is -1 exactly for an all-white-space line, else the first non-white-space index |
| TrimTag.MinOf | utils/trim.ts:7-12 | the minimum indent is Infinity exactly when every line is blank; otherwise it is the indent of some non-blank line and at most every non-blank line's indent |
| TrimTag.MinIndent | utils/trim.ts:7-12 | the loop lowering `minIndent` line by line computes that minimum |
| TrimTag.SliceFrom | utils/trim.ts:16 | `slice(minIndent)` returns a suffix of the line, shorter by exactly `minIndent` when the line is long enough, empty when it is not, and empty for Infinity |
| TrimTag.Dedent | utils/trim.ts:14-16 | the loop appends every sliced line followed by a line feed |
| TrimTag.ReassembleIsJoin | utils/trim.ts:14-16 | the reassembled text is the sliced lines joined by line feeds, plus a final one |
| TrimTag.DedentDropsOnlyWhitespace | utils/trim.ts:9-16 | slicing at the minimum indent removes only white space from any line |
| TrimTag.DedentKeepsLeastIndented | utils/trim.ts:9-16 | every least-indented line is non-empty after slicing and starts with a non-white-space character |
| TrimTag.TrimStart | utils/trim.ts:18 | the leading white space removed is all white space, and the rest does not start with white space |
| TrimTag.TrimEnd | utils/trim.ts:18 | the trailing white space removed is all white space, and the rest does not end with white space |
| TrimTag.TrimWs | utils/trim.ts:18 | `trim()` neither starts nor ends with white space and is empty exactly for an all-white-space text |
| TrimTag.Trim | utils/trim.ts:1-19 | the tag composes interpolation, split, minimum indent, slicing and trim, and its result has no white space at either end |
| TrimTag.TrimmedAllBlank | utils/trim.ts:7-18 | a template whose text is all white space trims to the empty string |
| Migration.Upgrade | composables/storage-migration.ts:10-16 | the upgraded list has the same length, prompt `i` is the version-1 string `i`, the expected output is empty and the id is the `i`-th `randomId()` |
| Migration.Migrate | composables/storage-migration.ts:3-19 | on the server or with no version-1 data nothing changes; otherwise version 2 is replaced (not appended to) by the upgraded list, and version 1 is emptied |
| Migration.MigrateIdempotent | composables/storage-migration.ts:9-17 | running the migration twice has the effect of running it once |
| Migration.MigrateKeepsPrompts | composables/storage-migration.ts:10-14 | every version-1 prompt survives in the same position |
| Migration.SyncedState.constructor | composables/storage-migration.ts:6-7 | the two stores hold the given contents |
| Migration.SyncedState.RunMigrations | composables/storage-migration.ts:3-19 | the two stores are updated in place to the result of `Migrate` |

## Left out

- Calls to the language model are not modelled. These are `ai.cursive.query` in
  candidate generation, test-case generation, generation and judging. Their results
  are inputs:
  - the fetched responses;
  - the generations of each round;
  - the judge's token.
- `generateTestCases` is left out. It is one model call followed by an append to
  `testCases`.
- The prompt text sent to the judge and to candidate generation is not modelled. This
  includes its use of `trim`.
- Randomness is not modelled. The Gaussian samples (`randomNormal`) are an input: one
  vector per iteration, one sample per key. The results of
  `Math.ceil(Math.random() * bound)` are the integer inputs `drawA` and `drawB`.
- Floating point is not modelled. Ratings and `sd` are real numbers.
  `expectedScore` (`10 ** x`) is a parameter known only by its properties.
- Concurrency is not modelled: `pLimit`, the `Promise.all` fan-out of rounds and
  battles, and the interleaving of rounds that re-read the ratings after their awaits.
  Rounds are settled one at a time in test-case order. A wave of battles is counted,
  not run.
- The abort controller is not modelled. Neither are the `settledAt` timestamps, the
  timing logs and the `isGenerating…` flags.
- Persistence of the synced state (localStorage), notifications and the settings UI
  are not modelled. Settings are constants with the store's defaults.
- `Prompter.AutoPrompter.RunBattle` models one failure only. When there is a test case
  and a drawn fighter is missing, the source fails before its first write. A failed
  or aborted model call is not modelled.
- `Matchmaking.CountWins` credits nothing when there are no candidates. The source
  then increments `distribution[undefined]`, which stores `NaN` under the key
  `"undefined"` (composables/auto-prompter.ts:170-172). That key is never selected:
  adding its `NaN` count makes the running sum `NaN`, and `NaN >= randomNumber` is
  false (composables/auto-prompter.ts:182-183).
- `Matchmaking.Keys` assumes candidate ids are array-index-like integers. JavaScript
  enumerates such keys in ascending order; ids of 2^32 - 1 or more would be
  enumerated in insertion order instead.
- `TrimTag.SliceFrom` and `TrimTag.FirstNonWs` count Unicode characters. JavaScript
  strings count UTF-16 code units, so indices differ for characters outside the Basic
  Multilingual Plane.
- `Migration.Upgrade` takes the ids as a function from position to id. It is the
  sequence of values successive `randomId()` calls return; how the ids are generated
  is not modelled.
- `Scheduler.BattleLoop.RunNumberOfBattles` takes the arrival of `stopRunningBattles`
  as the index of the wave being awaited when it runs. The source can only run it
  while a wave is awaited.
  - Whether the aborted calls make that wave reject depends on the model client,
    which is not part of this model. It is the input `abortRejects`.
  - A wave that rejects for any other reason (a failed model call with no stop) is
    not modelled: every wave launched before the stop completes.
