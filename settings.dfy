/** The defaults of the settings store that the modelled operations read. */
module Settings {
  const StartingRating: real := 1000.0
  const StartingSD: real := 350.0
  const BattleValue: real := 100.0
  const LearningRate: real := 0.96
  const SimultaneousBattles: nat := 1
}
