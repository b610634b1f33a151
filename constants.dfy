/** Trading constants shared by the signal logic (the values of the bot's constants module). */
module Constants {
  /** Look-back of every RSI computed with the default period. */
  const RsiPeriod: nat := 14
  const RsiOverbought: real := 70.0
  const RsiOversold: real := 30.0
  /** Minimum ratio of current to average volume that counts as a volume breakout. */
  const VolumeRatioMin: real := 1.15
  /** Minimum reward-to-risk multiple used when a reinforced trend gets new targets. */
  const MinRrRatio: real := 2.0
}
