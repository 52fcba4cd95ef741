# Starship alpha bot: a verified model

The project models the parts of the Starship alpha bot that carry state or
arithmetic over unbounded input, and proves what holds for every input and every
run:

- **Candle assembly** (`CandleBuffer`, `CandleSpec`, `CandleAssembly`): a stream of
  repeated, late and partly updated 5-minute candles becomes a bounded, ordered
  buffer of closed bars. A class with the program's fields refines a whole-stream
  description.
- **Indicators** (`Indicators`, `TrendRisk`): EMA, ATR, Wilder smoothing, DI+, DI-,
  DX and ADX as array loops against recursive series.
- **Option symbols** (`OptionSymbols`, `ChainGreeks`): printing and parsing of
  option symbols and the dictionary of chain greeks keyed by them.
- **Condor picker** (`Condor`): delta-neutral choice of shorts and snapped wings.
- **Sentinel** (`Sentinel`): hysteresis, cooldowns and heartbeats of the alerting
  class, over whole runs.
- **Simulation** (`SimLab`) and **exit estimates** (`ExitEta`).
- **Tickets, Pine bridge and desk** (`Text`, `Pricing`, `Quotes`, `Tickets`,
  `TicketSteps`, `Rebuilding`, `PineModels`, `Stores`, `Previews`, `PineBridge`,
  `PineRules`, `AlertMeaning`, `Desk`, `DeskRules`, `History`, `Runs`, `Witnesses`,
  `Service`): price snapping, quote arithmetic, the ticket record and its steps, and
  the processing of alerts and desk operations as steps of a world of two stores and a
  log. Invariants are proved over all runs of steps, short concrete runs show what the
  invariants leave open, and the class `Service.WebService` holds the stores as fields,
  performs the steps in place and keeps the invariants as its validity.

The functions an operation is computed by are met by statements that do not use them:
`AlertMeaning`, `DeskRules` and the lemmas whose names end in `Meaning`, `Law` or `Iff`
say in terms of the inputs what the operations answer.

`Basics` holds options, results, bounded tails and the two roundings. Floats are
real numbers, NaN and missing values are options. The clock, new identifiers, the
broker's answers, the calendar and what is found in an option chain are parameters,
so every statement holds for all of them. `dafny verify dfyconfig.toml` checks
everything.

Where code and text disagree the model follows the code. Limits of what the code does,
each with its exact condition or a concrete input:

- The gap retry announces a wait of 10 minutes but postpones one candle only
  (`CandleSpec.BackfillEndsSoon`).
- The limit on trades per day is not kept before phase 2.5 when it is 0, nor when it
  is negative (`SimLab.TradeLimitKeptIff`); the daily stop is looked at on winning
  trades only (`SimLab.DailyStopNeverTriggers`).
- The count of preview attempts includes retries whose client could not be loaded
  (`Runs.AttemptsCount`, `Runs.LostRetryIsCounted`, `Witnesses.LostRetryOccurs`).
- The bar whose close completes the warmup is never processed
  (`CandleAssembly.Engine.OnLive`).
- Rebuilding a preview request is not idempotent on legs that do not name their side
  (`Rebuilding.RebuildTwiceIff`, `Rebuilding.UnsettledTicketChanges`).
- The order placed is the order confirmed, but not necessarily one that was
  previewed, and the ticket page always prepares a credit order, also on a close
  ticket (`Runs.SubmissionStory`, `Witnesses.UnpreviewedOrderIsPlaced`,
  `Runs.PlacedIsPreviewedIff`).
- A closed position can be closed once more, with a second close ticket
  (`PineRules.ClosedCanCloseAgain`, `Witnesses.ClosedTwice`).
- DI+ and DI- can exceed 100 together after a bar that closes outside its range, and a
  heartbeat window can beat twice when local time goes back; both conditions are exact
  (`TrendRisk.DiBoundIff`, `Sentinel.OneHeartbeatIff`).
- Hysteresis must not be negative, and caution - hysteresis must not exceed hostile,
  for the two arming laws (`Sentinel.ArmedMeaningIff`, `Sentinel.HostileImpliesCaution`).

## Model

| member | source | states |
|---|---|---|
| `CandleBuffers.CandleBuffer.Append` | packages/starship_engine/src/starship_engine/indicators.py:26-41 | after an append the buffer is the last `maxlen` of the old bars followed by the new one |
| `CandleSpec.BookIsLastAccepted` | packages/starship_engine/src/starship_engine/app/engine.py:1128-1226 | a time maps to a bar in the ghost book iff that bar is the last accepted update of that time; during backfill everything is accepted, later only updates at or above every earlier time |
| `CandleSpec.HistoryMeaning` | packages/starship_engine/src/starship_engine/app/engine.py:1174-1233 | the closed bars strictly increase in time, and a bar is one of them iff it is the last accepted update of a time below the newest time seen |
| `CandleSpec.HistoryGrows` | packages/starship_engine/src/starship_engine/app/engine.py:1193-1233 | after backfill an update closes the forming bar exactly when its time is a new maximum; any other update leaves the closed bars alone, and an equal time replaces the forming bar |
| `CandleSpec.BackfillStep` | packages/starship_engine/src/starship_engine/app/engine.py:1128-1191 | what one more update does to the wait deadline, to readiness, to the use of the single retry and to the end of backfill |
| `CandleSpec.BackfillEndsSoon` | packages/starship_engine/src/starship_engine/app/engine.py:1128-1191 | once enough distinct bars are in, backfill ends within two further updates, whatever the times and the clock: at most one postponement for live data and one for gaps (the retry deadline written 10 minutes ahead postpones one update only) |
| `CandleSpec.TwoPostponementsHappen` | packages/starship_engine/src/starship_engine/app/engine.py:1132-1173 | both postponements do occur on a three-update stream, so the bound of two is exact |
| `CandleSpec.GapMeaning` | packages/starship_engine/src/starship_engine/app/engine.py:202-214 | a gap, told without sorting: two collected times more than 360000 ms apart with none between them |
| `CandleSpec.BackfillEndsWhen` | packages/starship_engine/src/starship_engine/app/engine.py:1131-1191 | exactly when an update ends backfill, in milliseconds and sets of times: 20 minutes around the clock announce live data, 10 minutes are waited, a gap postpones once |
| `CandleSpec.BackfillLengthMeaning` | packages/starship_engine/src/starship_engine/app/engine.py:1156-1191 | backfill takes exactly the updates up to the first one that completes it and is never entered again |
| `CandleSpec.PhaseMeaning` | packages/starship_engine/src/starship_engine/app/engine.py:1128-1233 | the update-by-update form of the assembly and the whole-stream form (book, history, forming bar, newest time) agree on every stream |
| `CandleSpec.PhaseOrderly` | packages/starship_engine/src/starship_engine/app/engine.py:1189-1233 | in every live phase the closed bars strictly increase and lie before the forming bar |
| `CandleAssembly.BackfillGapStats` | packages/starship_engine/src/starship_engine/app/engine.py:202-214 | the gap count and the largest gap, and the count is positive iff two neighbouring times are more than 6 minutes apart |
| `CandleAssembly.SortKeys` | packages/starship_engine/src/starship_engine/app/engine.py:242 | the loop yields the unique strictly increasing sequence of the keys |
| `CandleAssembly.Latest` | packages/starship_engine/src/starship_engine/app/engine.py:1174-1177 | the bar stored at the newest time |
| `CandleAssembly.Engine.constructor` | packages/starship_engine/src/starship_engine/app/state.py:8-50 | the initial fields describe the empty stream |
| `CandleAssembly.Engine.BackfillTarget` | packages/starship_engine/src/starship_engine/app/engine.py:224-230 | backfill asks for the smaller of the two configured counts, for the one that is set when only one is, and never for fewer than 2 bars |
| `CandleAssembly.Engine.SeedBackfill` | packages/starship_engine/src/starship_engine/app/engine.py:232-263 | the buffer becomes the tail of the sorted backfill bars without the current one, and `last_closed_t` is the last of them |
| `CandleAssembly.Engine.BackfillDecision` | packages/starship_engine/src/starship_engine/app/engine.py:1131-1173 | exactly when an update ends backfill, and what it does to deadlines and retries |
| `CandleAssembly.Engine.Collect` | packages/starship_engine/src/starship_engine/app/engine.py:1128-1191 | collecting one bar takes the fields from the phase before to the phase after |
| `CandleAssembly.Engine.FinishBackfill` | packages/starship_engine/src/starship_engine/app/engine.py:1174-1190 | leaving backfill puts every field where the live phase says: newest bar forming, all older ones closed |
| `CandleAssembly.Engine.OnBackfill` | packages/starship_engine/src/starship_engine/app/engine.py:1128-1191 | an update in backfill moves the fields to the phase of the longer stream and hands no bar to processing |
| `CandleAssembly.Engine.CloseBar` | packages/starship_engine/src/starship_engine/app/engine.py:1228-1233 | closing appends the finished bar to the buffer and counts it |
| `CandleAssembly.Engine.CloseForming` | packages/starship_engine/src/starship_engine/app/engine.py:1228-1311 | closing the forming bar starts the next one and advances the warmup, which is done once the buffer holds enough bars; the answer is whether the warmup was done before the close |
| `CandleAssembly.Engine.OnLive` | packages/starship_engine/src/starship_engine/app/engine.py:1193-1378 | an update after backfill moves the fields to the phase of the longer stream and hands on the closed bar exactly when it closes one, warmup was done before it and the time window allows: the bar that completes the warmup is not processed |
| `CandleAssembly.Engine.OnCandle` | packages/starship_engine/src/starship_engine/app/engine.py:1096-1378 | for every candle stream: the stream goes on exactly for a candle with a time, four numbers and no close at or below 0, by an event that carries the candle's open, high, low, close and time under their own names; a bar at the newest time or later becomes the forming one with those values; fields always equal the phase of the stream (buffer = last `maxlen` of the history), other candles change nothing, processed bars are closed bars in strictly increasing time, and at most all accepted bars but one are processed |
| `Indicators.Ema` | packages/starship_engine/src/starship_engine/indicators.py:56-81 | the loop fills the array with the recursively defined EMA, undefined before the seed; a length of 0 or less is an error |
| `Indicators.EmaWithin` | packages/starship_engine/src/starship_engine/indicators.py:69-81 | the EMA never leaves the range of the prices seen so far |
| `Indicators.EmaLaw` | packages/starship_engine/src/starship_engine/indicators.py:56-81 | the EMA by its weights: the seed is the mean of the first prices, then length + 1 parts are length - 1 parts of the last value and two of the new price |
| `Indicators.EmaOfTwoPrices` | packages/starship_engine/src/starship_engine/indicators.py:56-81 | after equal prices a, one price b counts twice against length - 1 times a |
| `Indicators.TrueRangeMeaning` | packages/starship_engine/src/starship_engine/indicators.py:88-118 | the true range is the length of the shortest interval that holds the bar and the close before it |
| `Indicators.AtrLaw` | packages/starship_engine/src/starship_engine/indicators.py:88-129 | the ATR by its weights: a mean as seed, then length - 1 parts of the last value and one of the new range |
| `Indicators.Atr` | packages/starship_engine/src/starship_engine/indicators.py:88-129 | the loops fill the array with Wilder's average of the true ranges; length and size errors in the order of the program |
| `Indicators.NanMean` | packages/starship_engine/src/starship_engine/indicators.py:118 | the mean of the numbers in a range, none when the range has no number |
| `Indicators.AverageInto` | packages/starship_engine/src/starship_engine/indicators.py:118-127 | the seeding and averaging loop fills the array with the ATR series of any true ranges: gaps are skipped, and a seed window without numbers leaves the whole series undefined |
| `TrendRisk.WilderSmoothSum` | packages/starship_engine/src/starship_engine/apps/trend_risk/logic.py:147-162 | the smoothing loop equals the carried Wilder sum, gaps skipped and left undefined |
| `TrendRisk.WilderSmoothAvg` | packages/starship_engine/src/starship_engine/apps/trend_risk/logic.py:165-186 | the averaging loop equals the carried Wilder average from its start index, undefined when the seed window has a gap |
| `TrendRisk.DirectionalInputs` | packages/starship_engine/src/starship_engine/apps/trend_risk/logic.py:205-218 | the loop computes both directional moves and the true range of every bar |
| `TrendRisk.MovesMeaning` | packages/starship_engine/src/starship_engine/apps/trend_risk/logic.py:205-218 | of the rise of the highs and the fall of the lows only the larger one counts, and only when it is positive |
| `TrendRisk.SummingLaw` | packages/starship_engine/src/starship_engine/apps/trend_risk/logic.py:147-162 | Wilder's sum loses one part in length and gains the new value |
| `TrendRisk.AveragingLaw` | packages/starship_engine/src/starship_engine/apps/trend_risk/logic.py:165-186 | his average is length - 1 parts of the last one and one part of the new value |
| `TrendRisk.DxExtremes` | packages/starship_engine/src/starship_engine/apps/trend_risk/logic.py:231-238 | DX is 0 iff both indices are equal and 100 iff one of them is 0 |
| `TrendRisk.RisingAdxIsHundred` | packages/starship_engine/src/starship_engine/apps/trend_risk/logic.py:189-241 | in a pure upward trend the ADX is 100 wherever it is defined, and on well-formed bars it is defined from its first full length on |
| `TrendRisk.RatioOf` | packages/starship_engine/src/starship_engine/apps/trend_risk/logic.py:224-229 | the percentage of one sum in another: defined where the divisor is positive, and then share times divisor is 100 times the part |
| `TrendRisk.DxOf` | packages/starship_engine/src/starship_engine/apps/trend_risk/logic.py:231-238 | the DX loop: defined where both indices are and their sum is positive, and then DX times the sum is 100 times the distance of the two |
| `TrendRisk.ComputeDmiAdx` | packages/starship_engine/src/starship_engine/apps/trend_risk/logic.py:189-241 | the array code equals the series definitions of ADX, DI+ and DI-; too few bars give one undefined array three times; while highs strictly rise and lows never fall every defined ADX is 100 |
| `TrendRisk.WilderSumIsLengthTimesAtr` | packages/starship_engine/src/starship_engine/indicators.py:88-129 | the Wilder sum of the true ranges in the other module is defined exactly where the ATR is and equals length times it |
| `TrendRisk.DiBounds` | packages/starship_engine/src/starship_engine/apps/trend_risk/logic.py:205-229 | DI+ and DI- are defined together and never negative; on bars with low <= close <= high they add up to at most 100 |
| `TrendRisk.DiBoundIff` | packages/starship_engine/src/starship_engine/apps/trend_risk/logic.py:205-229 | the exact condition, one bar at a time: DI+ and DI- add up to at most 100 after every possible next bar with low <= high iff low <= close <= high holds for this one |
| `TrendRisk.DxAndAdxArePercentages` | packages/starship_engine/src/starship_engine/apps/trend_risk/logic.py:231-240 | every defined DX and ADX lies between 0 and 100, on any bars |
| `TrendRisk.MalformedBarsBreakTheBound` | packages/starship_engine/src/starship_engine/apps/trend_risk/logic.py:205-229 | a concrete pair of bars whose close lies outside low..high and whose DI+ is 1000 |
| `TrendRisk.ScalingChangesNothing` | packages/starship_engine/src/starship_engine/apps/trend_risk/logic.py:189-241 | multiplying all prices by a positive factor changes neither DI+, DI- nor ADX |
| `TrendRisk.MirrorSwapsDirections` | packages/starship_engine/src/starship_engine/apps/trend_risk/logic.py:189-241 | negating prices and exchanging highs with lows exchanges DI+ and DI- and keeps the ADX |
| `OptionSymbols.ScanIsThePattern` | packages/starship_shared/src/starship_shared/options/parse.py:15 | the scanner succeeds iff the regular expression matches, and every match has the groups it returns: the pattern is unambiguous |
| `OptionSymbols.SymbolParses` | packages/starship_shared/src/starship_shared/options/parse.py:18-49 | the outcome of parsing a printed symbol, for every root, date, right and integer of thousandths |
| `OptionSymbols.RoundTrip` | packages/starship_engine/src/starship_engine/apps/etrade_probe/app.py:196-205 | printing then parsing returns the right and the strike in thousandths for everything the format carries (roots of 1 to 6 characters, 0 < thousandths <= 200000000) and nothing for all else |
| `OptionSymbols.NegativeStrikeFails` | packages/starship_engine/src/starship_engine/apps/etrade_probe/app.py:204-205 | a negative strike prints a sign that the pattern rejects |
| `OptionSymbols.DateIsSixDigits` | packages/starship_engine/src/starship_engine/apps/etrade_probe/app.py:205 | the date part always has six digits |
| `OptionSymbols.SymbolsNeverCollide` | packages/starship_engine/src/starship_engine/apps/etrade_probe/app.py:196-205 | on one root and date, equal symbols mean equal right and equal thousandths |
| `ChainGreeks.ChainGreeksMap` | packages/starship_engine/src/starship_engine/apps/etrade_probe/app.py:228-270 | the dictionary keyed by symbol is the dictionary keyed by contract under another name: no two contracts share an entry |
| `ChainGreeks.ContractMeaning` | packages/starship_engine/src/starship_engine/apps/etrade_probe/app.py:228-270 | a listing with delta, right and strike stands for the contract of that right at the nearest thousandth, ties to even; any other listing for none |
| `ChainGreeks.ByContractMeaning` | packages/starship_engine/src/starship_engine/apps/etrade_probe/app.py:228-270 | each contract appears once, with the greeks of its last usable listing |
| `ChainGreeks.ByContractInOrder` | packages/starship_engine/src/starship_engine/apps/etrade_probe/app.py:228-270 | the entries stand in the order in which their contracts are first listed with a usable delta, a later listing renewing the value in place |
| `ChainGreeks.ChainToPoints` | packages/starship_engine/src/starship_engine/condor.py:41-71 | from chain to points, by the loops of the program: the picker sees each listed contract once, under its own right and strike and with its last usable delta, in order of first usable listing; only what cannot be read back is left out |
| `CondorPicker.PickCondor` | packages/starship_engine/src/starship_engine/condor.py:97-184 | the imperative picker computes the condor of the specification, for every dictionary and setting; told from the points alone, its shorts are the first ones nearest to the delta targets after the nudging, and each long leg is the first one strictly outside nearest to one width away |
| `CondorPicker.PickShorts` | packages/starship_engine/src/starship_engine/condor.py:123-159 | the legs nearest to plus and minus the target delta, and with delta neutrality those at the end of an adjustment from there |
| `CondorPicker.AdjustShorts` | packages/starship_engine/src/starship_engine/condor.py:132-159 | at most ten nudges, each followed by the test against the cap: the legs end an adjustment in which every stage picks the nearest deltas, a net below the band moves the call target and any other the put target by one capped step, and which stops when neutral, capped or after ten |
| `CondorPicker.NudgeShorts` | packages/starship_engine/src/starship_engine/condor.py:136-156 | a net that is too negative leaves the put leg and target as they are and moves the call target by one capped step, any other net the other way round |
| `CondorPicker.PickWing` | packages/starship_engine/src/starship_engine/condor.py:161-182 | snapping with the correction of an inversion picks the specified wing, or none |
| `CondorPicker.CondorExistsIff` | packages/starship_engine/src/starship_engine/condor.py:117-184 | a condor is returned iff there are at least 4 puts and 4 calls and some put and some call lie strictly outside the chosen shorts |
| `CondorPicker.CondorMeaning` | packages/starship_engine/src/starship_engine/condor.py:97-184 | the condor of a list of points, told without filters and minima |
| `CondorPicker.PointsMeaning` | packages/starship_engine/src/starship_engine/condor.py:41-71 | the points are the dictionary's entries whose symbol parses and whose delta is a number, with the symbol's right and strike and that delta |
| `CondorPicker.WingsAreFirstNearest` | packages/starship_engine/src/starship_engine/condor.py:161-182 | each long leg is the first point strictly outside its short whose strike is nearest to the wing target |
| `CondorPicker.ShortsAreFirstNearest` | packages/starship_engine/src/starship_engine/condor.py:83-94 | each short leg is the first point of its right whose delta is nearest to the target |
| `CondorPicker.WingBySnapping` | packages/starship_engine/src/starship_engine/condor.py:165-182 | snapping to the nearest strike and then correcting an inversion picks the same wing as searching the outer side from the start |
| `CondorPicker.NearestDeltaMonotone` | packages/starship_engine/src/starship_engine/condor.py:83-94 | the nearest delta moves with the target, ties included |
| `CondorPicker.AdjustMovesOutward` | packages/starship_engine/src/starship_engine/condor.py:132-159 | with a step >= 0 and targets within the cap, nudging never lowers the short call's delta, never raises the short put's, and keeps both targets within the cap |
| `CondorPicker.OneSided` | packages/starship_engine/src/starship_engine/condor.py:132-159 | while the net delta stays below the band only the call leg changes, while it stays above only the put leg |
| `CondorPicker.NudgesHelp` | packages/starship_engine/src/starship_engine/condor.py:136-156 | with a step >= 0 and targets within the cap every nudge leaves the other leg alone and moves the net delta up from below the band and down from above it |
| `CondorPicker.NeutralIsFinal` | packages/starship_engine/src/starship_engine/condor.py:135-138 | a neutral outcome is final: allowing more nudges changes nothing |
| `Sentinel.ArmedMeaning` | packages/starship_engine/src/starship_engine/apps/sentinel/core.py:135-155 | with hysteresis >= 0 a threshold is armed iff the last score outside its band was above it (or none was) |
| `Sentinel.ArmedMeaningIff` | packages/starship_engine/src/starship_engine/apps/sentinel/core.py:135-155 | the closed form holds on all runs iff the hysteresis is not negative |
| `Sentinel.ArmedDownwardClosed` | packages/starship_engine/src/starship_engine/apps/sentinel/core.py:135-155 | after every run a lower threshold is armed whenever a higher one is |
| `Sentinel.HostileImpliesCaution` | packages/starship_engine/src/starship_engine/apps/sentinel/core.py:184-226 | hostile disarmed implies caution disarmed on all runs iff caution - hysteresis <= hostile |
| `Sentinel.VovArmedMeaning` | packages/starship_engine/src/starship_engine/apps/sentinel/core.py:184-226 | with hysteresis >= 0 a volatility level is armed iff the last decisive reading was not above it |
| `Sentinel.OneBar` | packages/starship_engine/src/starship_engine/apps/sentinel/core.py:129-156 | one bar moves every threshold by one trigger step, and a cross fires exactly for those going from armed to disarmed |
| `Sentinel.CrossesDistinct` | packages/starship_engine/src/starship_engine/apps/sentinel/core.py:129-156 | no bar reports a threshold twice, even when it is configured twice |
| `Sentinel.ArmedMapMeaning` | packages/starship_engine/src/starship_engine/apps/sentinel/core.py:62-67 | after every run each entry of the map of armed thresholds has the closed form |
| `Sentinel.SortSorts` | packages/starship_engine/src/starship_engine/apps/sentinel/core.py:135 | the thresholds are visited as a descending permutation |
| `Sentinel.RunSpaced` | packages/starship_engine/src/starship_engine/apps/sentinel/core.py:310-329 | consecutive emissions of a key with a cooldown are at least the cooldown apart, and the stored time is the last emission |
| `Sentinel.CooldownRateBound` | packages/starship_engine/src/starship_engine/apps/sentinel/core.py:310-329 | of the events of one key that a run returns, the i-th and j-th are at least (j - i) cooldowns apart, however the clock jumps |
| `Sentinel.ReturnedEventsAreApart` | packages/starship_engine/src/starship_engine/apps/sentinel/core.py:277-329 | two returned events that share a cooldown are at least the configured seconds of their kind apart |
| `Sentinel.ReturnedIff` | packages/starship_engine/src/starship_engine/apps/sentinel/core.py:310-329 | an event is returned iff the last returned event of its cooldown is not less than that cooldown ago: nothing else is held back |
| `Sentinel.SentIsEmissions` | packages/starship_engine/src/starship_engine/apps/sentinel/core.py:310-329 | the times at which events of a key are returned are the emissions of that key |
| `Sentinel.RateBound` | packages/starship_engine/src/starship_engine/apps/sentinel/core.py:310-329 | a window of w seconds holds at most w / c + 1 emissions |
| `Sentinel.OneHeartbeatPerWindow` | packages/starship_engine/src/starship_engine/apps/sentinel/core.py:250-275 | while local time does not run backwards no window has two heartbeats, on runs of any length |
| `Sentinel.WindowMeaning` | packages/starship_engine/src/starship_engine/apps/sentinel/core.py:261-262 | two readings share a window iff they share the date and the stretch of so many minutes since midnight |
| `Sentinel.BeatMeaning` | packages/starship_engine/src/starship_engine/apps/sentinel/core.py:250-275 | a reading beats iff it counts and the last reading before that counts lies in another window |
| `Sentinel.OneHeartbeatIff` | packages/starship_engine/src/starship_engine/apps/sentinel/core.py:250-275 | the exact condition: some window beats twice iff two eligible readings of one window enclose an eligible reading of another |
| `Sentinel.RepeatedHourBeatsTwice` | packages/starship_engine/src/starship_engine/apps/sentinel/core.py:261-266 | a run in which local time goes back and one window beats twice |
| `Sentinel.SlackSentinel.DetectScoreCross` | packages/starship_engine/src/starship_engine/apps/sentinel/core.py:129-156 | the loop over thresholds computes the specified crosses and armed map and extends the run by one score |
| `Sentinel.SlackSentinel.constructor` | packages/starship_engine/src/starship_engine/apps/sentinel/core.py:38-67 | the initial fields describe the empty run, and the heartbeat interval is at least one minute |
| `Sentinel.SlackSentinel.DetectVovSpike` | packages/starship_engine/src/starship_engine/apps/sentinel/core.py:184-226 | spike events and both armed flags are one trigger step of the run |
| `Sentinel.SlackSentinel.DetectHeartbeat` | packages/starship_engine/src/starship_engine/apps/sentinel/core.py:250-275 | a heartbeat is detected iff the clock is eligible and the last eligible window was another |
| `Sentinel.LevelEventsMeaning` | packages/starship_engine/src/starship_engine/apps/sentinel/core.py:99-248 | kind by kind, when a bar reports: a changed regime; an armed threshold undercut; a VRP or MR break when the value is unknown or beyond its limit and the one before was not beyond it; an armed volatility level exceeded |
| `Sentinel.MarketStateMeaning` | packages/starship_engine/src/starship_engine/apps/sentinel/state.py:23-79 | the score is 100 less what each reading costs, never below 0; up to 30 points lost the regime is friendly, beyond 50 hostile |
| `Sentinel.SlackSentinel.ApplyCooldown` | packages/starship_engine/src/starship_engine/apps/sentinel/core.py:310-329 | the loop emits exactly the events that are not cold at their turn and records their times |
| `Sentinel.SlackSentinel.DetectEvents` | packages/starship_engine/src/starship_engine/apps/sentinel/core.py:82-97 | the detectors run in the order of the program and extend their runs by one |
| `Sentinel.SlackSentinel.OnState` | packages/starship_engine/src/starship_engine/apps/sentinel/core.py:75-80 | detection, cooldown and the new previous state, for a given market state; the events returned are what the run of batches sends now |
| `Sentinel.SlackSentinel.OnCandleClose` | packages/starship_engine/src/starship_engine/apps/sentinel/core.py:69-80 | one candle extends every run by one; its market state is what the readings cost, the levels reported are those the readings and the armed flags call for, and the events returned, stamped with its time, are exactly what the longer run sends beyond the shorter one |
| `SimLab.EquityLoop` | packages/starship_simlab/src/starship_simlab/ic_filter.py:383-393 | equity, peak and drawdown are the running sum, its running maximum from 0, and their difference |
| `SimLab.MaxDrawdown` | packages/starship_simlab/src/starship_simlab/ic_filter.py:453 | the least entry of the drawdown series, 0 for no days |
| `SimLab.DrawdownIsLeastBlockSum` | packages/starship_simlab/src/starship_simlab/ic_filter.py:383-393 | the streamed maximum drawdown is the least sum of a block of consecutive days, the empty block included |
| `SimLab.ProfitFactorOf` | packages/starship_simlab/src/starship_simlab/ic_filter.py:428-435 | sums of gains and of losses, which add up to the total, and the profit factor with its two special cases |
| `SimLab.MaxStreak` | packages/starship_simlab/src/starship_simlab/core.py:50-59 | the loop returns the length of a longest block of equal results |
| `SimLab.ComputeConfusion` | packages/starship_simlab/src/starship_simlab/core.py:37-47 | the four counts of the matrix over the common length, adding up to it |
| `SimLab.ReportTargets` | packages/starship_simlab/src/starship_simlab/ic_filter.py:289-301 | the profit targets reported are the ones the trades of a day use |
| `SimLab.EffectiveMaxMeaning` | packages/starship_simlab/src/starship_simlab/ic_filter.py:283-289 | the trades of a day are bound by the smaller of the two configured counts, one less but not below 0 when the first slot is used up |
| `SimLab.TargetMeaning` | packages/starship_simlab/src/starship_simlab/ic_filter.py:334-345 | the target of each trade within the limit: the configured one for its place, else the plain one, multiplied from the second trade on when none are configured |
| `SimLab.PlainTargets` | packages/starship_simlab/src/starship_simlab/ic_filter.py:334-349 | what n winning trades earn without configured targets, in closed form |
| `SimLab.ConfiguredTargets` | packages/starship_simlab/src/starship_simlab/ic_filter.py:334-349 | what n winning trades earn with configured targets: the first n of them |
| `SimLab.LossMeaning` | packages/starship_simlab/src/starship_simlab/ic_filter.py:314-325 | the loss of a losing trade: the maximum, or with scaling the floor up to the allowed range, the maximum from twice that range on and a proportional part between, and never above the stop |
| `SimLab.LossWithin` | packages/starship_simlab/src/starship_simlab/ic_filter.py:314-325 | a scaled loss lies between its floor and its maximum and never above the stop |
| `SimLab.RunDay` | packages/starship_simlab/src/starship_simlab/ic_filter.py:303-381 | what a day is worth, in all branches: number of trades taken, sum of their targets up to the daily stop, or one loss |
| `SimLab.RunDays` | packages/starship_simlab/src/starship_simlab/ic_filter.py:303-381 | the loop over days gives each day its worth |
| `SimLab.TradeLimitKeptIff` | packages/starship_simlab/src/starship_simlab/ic_filter.py:281-287 | a day takes at most the effective maximum of trades iff that maximum is positive, or it is 0 and days are simulated trade by trade; before phase 2.5 a maximum of 0 still trades once, and a negative one never bounds anything |
| `SimLab.DailyStopNeverTriggers` | packages/starship_simlab/src/starship_simlab/ic_filter.py:342-350 | with targets that are not negative and a positive stop the daily stop never triggers: it is only looked at on winning trades |
| `SimLab.Simulate` | packages/starship_simlab/src/starship_simlab/ic_filter.py:303-453 | the total is the sum of all days and of gains plus losses, and the maximum drawdown is the least block sum and never positive |
| `ExitEta.EstimateSingleTarget` | packages/starship_engine/src/starship_engine/apps/exit_planner/eta.py:74-100 | the search ends and returns 0 when already there, else the rounded minute of the first hit within the horizon, else nothing |
| `ExitEta.EtaIsUnique` | packages/starship_engine/src/starship_engine/apps/exit_planner/eta.py:74-100 | that description determines the estimate |
| `ExitEta.ClosedForm` | packages/starship_engine/src/starship_engine/apps/exit_planner/eta.py:88-100 | with a positive decay the estimate is the ceiling of distance over decay per step, when it lies within the horizon |
| `ExitEta.NoDecay` | packages/starship_engine/src/starship_engine/apps/exit_planner/eta.py:88-100 | without decay the target is reached at once or never |
| `ExitEta.EtaMonotone` | packages/starship_engine/src/starship_engine/apps/exit_planner/eta.py:85-100 | a higher target and a smaller adverse move are never reached later |
| `ExitEta.EstimateEta` | packages/starship_engine/src/starship_engine/apps/exit_planner/eta.py:146-290 | an estimate is made iff everything it needs is there; then each of the six is 0 when the profit is there already, else the nearest minute of the first step within the horizon at which mark, decay and move leave 15 or 25 percent of the credit, else none |
| `ExitEta.EstimateTriple` | packages/starship_engine/src/starship_engine/apps/exit_planner/eta.py:220-249 | the estimates of one target in the flat, down and up scenario |
| `ExitEta.TripleMeaning` | packages/starship_engine/src/starship_engine/apps/exit_planner/eta.py:74-100 | the estimates in terms of the position: a day's theta decays in 390 minutes, delta and half of gamma act on the move, and the profit is a percentage of the credit |
| `ExitEta.RefusalMeaning` | packages/starship_engine/src/starship_engine/apps/exit_planner/eta.py:158-190 | which value is missing when an estimate is refused, in the order in which they are looked at |
| `ExitEta.LargerTargetIsLater` | packages/starship_engine/src/starship_engine/apps/exit_planner/eta.py:214-280 | in each scenario the 25% target is never estimated before the 15% target for a credit, and the reverse for a debit |
| `ExitEta.MovesBracketFlat` | packages/starship_engine/src/starship_engine/apps/exit_planner/eta.py:91-98 | with short gamma one of the two moves is never later than the flat scenario, with long gamma one is never earlier |
| `Pricing.SnapIsAllowedAndNear` | packages/starship_web/src/starship_web/trade_tickets.py:158-170 | a snapped limit is a multiple of the increment, at least one for a positive price, and within half an increment apart from that floor |
| `Basics.RoundHalfUpMeaning` | packages/starship_web/src/starship_web/trade_tickets.py:158-170 | the rounding used: to the nearest integer, of two the one farther from zero |
| `Pricing.SnapIsNearest` | packages/starship_web/src/starship_web/trade_tickets.py:158-170 | no accepted price is closer |
| `Pricing.SnapMonotone` | packages/starship_web/src/starship_web/trade_tickets.py:158-170 | snapping keeps the order of prices |
| `Pricing.SnapFixesAllowed` | packages/starship_web/src/starship_web/trade_tickets.py:158-170 | a price stays as it is iff it is accepted |
| `Pricing.SnapTwice` | packages/starship_web/src/starship_web/trade_tickets.py:158-170 | snapping is idempotent |
| `Pricing.WarnsIffNoAllowedPriceNear` | packages/starship_web/src/starship_web/trade_tickets.py:171-184 | a warning is attached iff no accepted price lies within 1e-9 |
| `TicketSteps.TickMeaning` | packages/starship_web/src/starship_web/trade_tickets.py:137-155 | the increment is 0.05 for a net price of an index condor or spread and 0.01 otherwise, in any spelling |
| `Pricing.RoundPriceMonotone` | packages/starship_web/src/starship_web/pine_bridge.py:198-201 | rounding to cents keeps the order |
| `Quotes.FindMatchingContracts` | packages/starship_web/src/starship_web/pine_bridge.py:156-195 | the nested loops match every leg to the first listed row with the preferred root, else to the first row at its strike; nothing is matched iff some leg has no row |
| `Quotes.MatchLeg` | packages/starship_web/src/starship_web/pine_bridge.py:172-193 | one leg's match, none iff no row lists it |
| `Quotes.StrikeMatches` | packages/starship_web/src/starship_web/pine_bridge.py:173-183 | the loop collects, in order, the contracts of exactly the rows that list the strike |
| `Quotes.ListsMeaning` | packages/starship_web/src/starship_web/pine_bridge.py:165-183 | a row offers a leg the contract of its side, its own if it is a put or a call, at its strike to less than a millionth |
| `Quotes.DeriveEntryCredit` | packages/starship_web/src/starship_web/pine_bridge.py:210-242 | the loop computes mid and natural credit over all legs, nothing when a bid or ask is missing |
| `Quotes.QuotesMeaning` | packages/starship_web/src/starship_web/pine_bridge.py:210-230 | every leg needs a bid and an ask, and counts as sold iff its action says SELL |
| `Quotes.TotalsBySide` | packages/starship_web/src/starship_web/pine_bridge.py:210-321 | every total is what the sold legs bring less what the bought ones cost: opening at natural sells at the bid and buys at the ask, closing the other way round |
| `Quotes.SuggestionMeaning` | packages/starship_web/src/starship_web/pine_bridge.py:231-242 | mid and natural credit in cents, and as limit the accepted price nearest to the mid or to one cent |
| `Quotes.QuoteArithmetic` | packages/starship_web/src/starship_web/pine_bridge.py:210-321 | closing at mid costs what opening at mid pays, exactly the average of opening and closing at natural prices; with bids below asks opening natural <= mid <= closing natural |
| `Quotes.SuggestionIsAllowed` | packages/starship_web/src/starship_web/pine_bridge.py:231-242 | the suggested credit is an accepted price of at least one increment |
| `Quotes.DeriveLiveMark` | packages/starship_web/src/starship_web/pine_bridge.py:295-367 | the second loop computes the closing debits and all figures of the live mark, or raises on a missing quote |
| `Quotes.MarkMeaning` | packages/starship_web/src/starship_web/pine_bridge.py:336-367 | all figures of the mark by side and in cents: the gain is the entry credit less the debit for closing, in money per point and contract |
| `Quotes.EntryCreditMeaning` | packages/starship_web/src/starship_web/pine_bridge.py:285-292 | the reference credit is the first of intent, order limit, net price, suggestion and alert that is given and not 0 |
| `Quotes.MarkIsOrdered` | packages/starship_web/src/starship_web/pine_bridge.py:345-366 | rounded to cents the mark keeps that order, and the gain at natural prices never exceeds the gain at mid, in points and in money |
| `Tickets.GeometryMeaning` | packages/starship_web/src/starship_web/trade_tickets.py:94-134 | the legs decide the order type iff there are four, one in each role, all with strikes; the decision depends on the strikes only, not on the order of the legs |
| `Tickets.ShapeMeaning` | packages/starship_web/src/starship_web/trade_tickets.py:117-134 | ordered strikes with two equal wings are a condor; strikes out of order, or wings that differ beyond rounding, a spread |
| `Tickets.FallbackMeaning` | packages/starship_web/src/starship_web/trade_tickets.py:73-79 | what the order type is when the legs do not decide |
| `Text.NormMeaning` | packages/starship_web/src/starship_web/trade_tickets.py:82-91 | normalising removes blanks at both ends and differences of case, and nothing else |
| `Text.NormOfSpx` | packages/starship_web/src/starship_web/trade_tickets.py:82-91 | blanks are spaces, tabs and line ends: a spelling with all of them reads as SPX |
| `Tickets.ReversalKeepsRole` | packages/starship_web/src/starship_web/pine_bridge.py:749-756 | reversing an order action, whatever its text, keeps the leg short or long (which action it becomes: `AlertMeaning.CloseUndoesEntry`) |
| `Tickets.ReversalKeepsCorners` | packages/starship_web/src/starship_web/pine_bridge.py:766-769 | the legs of a close ticket have the roles and strikes of the entry's (their actions: `AlertMeaning.CloseUndoesEntry`) |
| `TicketSteps.PrepareLegs` | packages/starship_web/src/starship_web/trade_tickets.py:454-494 | the loop fills in missing sides, quantity and expiry, and writes the matching instrument for each leg |
| `Rebuilding.PreparationMeaning` | packages/starship_web/src/starship_web/trade_tickets.py:432-568 | what preparing a ticket achieves: the request's instruments read back as the ticket's legs, every leg names its side and keeps action, strike and contract under the one quantity and expiry given, the limit is the accepted price nearest to the one asked for, and the intent is complete but not confirmed |
| `Rebuilding.OrderTypeStaysIff` | packages/starship_web/src/starship_web/trade_tickets.py:94-134 | the order type survives a preparation iff filling in the missing put/call sides does not change it |
| `Rebuilding.RebuildPreparedIff` | packages/starship_web/src/starship_web/trade_tickets.py:571-603 | rebuilding a prepared ticket asks for the same order iff the price type is named, the order type is settled, the limit stays on the increment that now applies, and, if there are legs, the quantity is not zero and the date has all its parts |
| `Rebuilding.RebuildTwiceIff` | packages/starship_web/src/starship_web/trade_tickets.py:571-603 | rebuilding twice equals rebuilding once iff the order type is settled, the limit stays and, if there are legs, the chosen quantity is not zero; for any ticket |
| `Rebuilding.ComplexRebuildTwiceIff` | packages/starship_web/src/starship_web/trade_tickets.py:571-603 | for a complex order with a positive limit the limit always stays, so only the order type and the quantity decide |
| `Rebuilding.SidesSettle` | packages/starship_web/src/starship_web/trade_tickets.py:455-461 | legs that all name their side settle the order type |
| `Rebuilding.UnsettledTicketChanges` | packages/starship_web/src/starship_web/trade_tickets.py:571-603 | a ticket on which the second rebuild turns a spread order into a condor order |
| `Rebuilding.LegsRoundTrip` | packages/starship_web/src/starship_web/trade_tickets.py:243-295 | reading the instruments of a request back gives the legs without their contract data |
| `TicketSteps.ToLegsMeaning` | packages/starship_web/src/starship_web/trade_tickets.py:243-295 | instruments that can be read become legs in their order, field by field; a missing quantity counts as 0 |
| `Rebuilding.RebuildAfterPreviewIff` | packages/starship_web/src/starship_web/trade_tickets.py:208-349 | for every answer of the broker: a retry after the preview asks for exactly the previewed order iff the answer agrees with it in the order type it resolves to, the price type, the limit on the increment that then applies, the terms of every leg, and the quantity and expiry of the first |
| `Rebuilding.RebuildAfterBarePreviewIff` | packages/starship_web/src/starship_web/trade_tickets.py:642-668 | for an answer that carries no order of its own, and a complex order with a positive limit: the same order is asked for iff the order type was settled, although intent and contract data are dropped |
| `TicketSteps.ChosenMeaning` | packages/starship_web/src/starship_web/trade_tickets.py:571-603 | what a retry is made with: the first quantity and limit that are given and not 0, else 1 |
| `Rebuilding.AnsweredState` | packages/starship_web/src/starship_web/trade_tickets.py:642-668 | how an answered preview leaves the ticket: previewed iff the broker gave an id, without a snapshot, with identity and history kept |
| `Rebuilding.FailedState` | packages/starship_web/src/starship_web/trade_tickets.py:620-639 | how a failed preview leaves it: as it was sent, to be tried again after five minutes iff the service was busy |
| `PineModels.DerivedIdsDiffer` | packages/starship_web/src/starship_web/pine_models.py:138-152 | two alerts without an identifier are taken for one only if their six texts agree, provided none after the strategy contains a bar |
| `PineBridge.RefreshLiveMark` | packages/starship_web/src/starship_web/pine_bridge.py:701-742 | the live mark of a ticket, or none when refreshing raises |
| `AlertMeaning.LiveMarkIff` | packages/starship_web/src/starship_web/pine_bridge.py:701-742 | a mark is made iff the ticket has legs with a complete date and a quoted contract is found for each |
| `PineRules.ProcessShape` | packages/starship_web/src/starship_web/pine_bridge.py:879-1158 | every alert changes nothing, or makes at most one ticket and then updates the one state it is about |
| `PineRules.MadeTickets` | packages/starship_web/src/starship_web/pine_bridge.py:952-982 | making and previewing a ticket stores exactly that ticket and submits exactly one preview |
| `PineRules.PreviewingAsks` | packages/starship_web/src/starship_web/pine_bridge.py:953-982 | a preview asks the broker exactly once, stores exactly the ticket with its outcome, and leaves all positions alone |
| `PineRules.AlertConservesTickets` | packages/starship_web/src/starship_web/pine_bridge.py:879-1158 | opening, closing and failed previews make exactly one ticket and one broker request, all other alerts none; an alert that raises or repeats leaves both stores as they were, and other positions are untouched |
| `PineRules.EntryCreatesIff` | packages/starship_web/src/starship_web/pine_bridge.py:910-954 | exactly when an ENTRY creates a ticket |
| `PineRules.CloseCreatesIff` | packages/starship_web/src/starship_web/pine_bridge.py:1018-1113 | exactly when a CLOSE creates a ticket; whether the position is open is not asked |
| `AlertMeaning.CloseUndoesEntry` | packages/starship_web/src/starship_web/pine_bridge.py:749-794 | a CLOSE that makes a ticket asks the broker, once and from the entry's account, for a debit order with one instrument per entry leg, on its symbol, strike and side, buying what was sold to open and selling what was bought, in the alert's or the position's quantity, on the entry's date, tagged with the alert's id, at the accepted price nearest to the debit given or else quoted; the ticket is filed now, keeps the request, and matching legs unless the answer brings its own |
| `AlertMeaning.EntryOpensCondor` | packages/starship_web/src/starship_web/pine_bridge.py:910-982 | an ENTRY that makes a ticket asks the broker, once, for a credit order that sells both short strikes and buys both long ones of the alert, under the symbols and the date of the contracts found, tagged with the alert's id, at the accepted price nearest to its credit or else to the quoted one; the ticket is filed now, keeps the request, and the condor's legs unless the answer brings its own |
| `AlertMeaning.PositionAfter` | packages/starship_web/src/starship_web/pine_bridge.py:797-876 | which alert each reply answers and the position it leaves: status, activity, tickets, times, quantity, root, strikes and the newest log entry |
| `PineRules.ClosedCanCloseAgain` | packages/starship_web/src/starship_web/pine_bridge.py:1018-1113 | a closed position can be closed again by any other alert that gives a debit, with a second close ticket (`Witnesses.ClosedTwice` shows a run) |
| `PineRules.AlertKeepsState` | packages/starship_web/src/starship_web/pine_bridge.py:797-876 | open iff active; an open position has entry ticket and opening time and neither close ticket nor closing time; a closed one has both |
| `PineRules.AppliedRemembers` | packages/starship_web/src/starship_web/pine_bridge.py:811-828 | one accepted alert keeps the window exact: last 50 ids, each once, and the log's ids are the last 20 |
| `PineRules.CloseKeepsOrderTypeIff` | packages/starship_web/src/starship_web/pine_bridge.py:759-794 | a close ticket resolves to the entry's order type, except when only the strategy name made the entry a condor |
| `PineRules.FailedEntryRetriesTheSame` | packages/starship_web/src/starship_web/pine_bridge.py:961-963 | retrying an entry whose preview failed asks for the very order that failed iff its quantity is not zero, the matched date is complete and the limit stays; every limit that does not snap to 0 does, negative ones included |
| `DeskRules.RemapMeaning` | packages/starship_web/src/starship_web/app.py:123-147 | a ticket made by a signal follows the default account when there is one, any other ticket and any other field stays, and following twice is following once |
| `DeskRules.RetryMeaning` | packages/starship_web/src/starship_web/app.py:2762-2850 | a retry that passes its gates counts one attempt, asks the broker once if the client loads and never otherwise, unconfirms the ticket, and leaves it prepared unless the preview succeeded; one that does not pass changes the account at most |
| `DeskRules.RetryIff` | packages/starship_web/src/starship_web/app.py:2762-2802 | exactly when a retry is made: an account, a stored request, and no waiting time left |
| `DeskRules.BusyWaits` | packages/starship_web/src/starship_web/trade_tickets.py:66-70 | after a failed retry the next one waits five minutes iff the service was busy |
| `DeskRules.FormMeaning` | packages/starship_web/src/starship_web/app.py:2853-2899 | preparing from the page makes an unconfirmed credit order of any ticket, keeps its preview id and asks the broker for nothing |
| `DeskRules.ConfirmMeaning` | packages/starship_web/src/starship_web/app.py:2902-2947 | confirming changes one flag and can be undone, and what is confirmed is the request stored at that time |
| `DeskRules.SuggestMeaning` | packages/starship_web/src/starship_web/app.py:710-777 | enriching happens iff a contract is found for every leg; it renews the snapshot and the legs' contracts and keeps request, intent, confirmation, actions and strikes |
| `DeskRules.SuggestLegs` | packages/starship_web/src/starship_web/app.py:652-707 | every leg gets the chain's symbol and expiry and the identifier of the contract found for it; puts stay puts and calls stay calls |
| `DeskRules.SuggestCredit` | packages/starship_web/src/starship_web/app.py:571-598 | the credit an enriched ticket suggests: the mid over its legs in cents, at least one cent, iff every contract is quoted |
| `DeskRules.IngestMeaning` | packages/starship_web/src/starship_web/app.py:3695-3721 | a signal makes one ticket without a request iff a default account is set, and no other ticket changes |
| `DeskRules.IngestSellsShorts` | packages/starship_web/src/starship_web/trade_tickets.py:352-405 | the draft of a signal sells both short strikes and buys both long ones, and is filed under its strategy, which decides between condor and spread |
| `DeskRules.UnmatchedDraft` | packages/starship_web/src/starship_web/trade_tickets.py:352-405 | without contracts a draft's legs are on the broker's symbol for the next trading day |
| `DeskRules.EnterMeaning` | packages/starship_web/src/starship_web/app.py:3380-3447 | a request entered by hand makes one ticket that keeps it, with one attempt and one broker request iff the client loads |
| `DeskRules.SubmitMeaning` | packages/starship_web/src/starship_web/app.py:2989-3029 | an order goes out iff the ticket is ready, a place request can be made, execution is live and the client loads; nothing but the stored place request and the status ever changes |
| `DeskRules.SubmitIff` | packages/starship_web/src/starship_web/app.py:257-297 | exactly when an order goes out, in terms of the ticket's fields, ages and the settings, and what is placed: the stored orders under the preview's id with a client id of at most 20 letters and digits; without live execution the request is only packaged |
| `Service.WebService.RetryPreview` | packages/starship_web/src/starship_web/app.py:2762-2850 | the method on the stores keeps the world in order and touches one ticket only; the log grows iff there is an account and a stored request and the waiting time is over; attempts and broker requests advance together unless the client is lost |
| `Service.WebService.PreparePreview` | packages/starship_web/src/starship_web/app.py:2853-2899 | the method on the stores keeps the world in order and leaves its one ticket prepared, unconfirmed and a credit order |
| `Service.WebService.SetConfirmation` | packages/starship_web/src/starship_web/app.py:2902-2947 | the method on the stores keeps the world in order, and the record then shows the stored request as confirmed, or nothing |
| `Service.WebService.SuggestContracts` | packages/starship_web/src/starship_web/app.py:710-777 | the method on the stores keeps the world in order, the request and the confirmation, and dates the snapshot |
| `Service.WebService.IngestSignal` | packages/starship_web/src/starship_web/app.py:3695-3721 | the method on the stores keeps the world in order and makes at most the one new ticket, without a request |
| `Service.WebService.PreviewByHand` | packages/starship_web/src/starship_web/app.py:3380-3447 | the method on the stores keeps the world in order and makes the one new ticket; its attempts are the previews submitted |
| `Service.WebService.SubmitExecution` | packages/starship_web/src/starship_web/app.py:2989-3029 | the method on the stores keeps the world in order; the log grows by one order iff the ticket is prepared, confirmed, previewed and has its contracts, preview and snapshot (and a signal) are no older than allowed, there are orders to place, execution is live and allowed and the client loads; that order has its story |
| `Service.WebService.ProcessAlert` | packages/starship_web/src/starship_web/pine_bridge.py:879-1158 | the method on the stores keeps the world in order, conserves tickets and broker requests, changes no other position, and answers duplicate iff the id is among the last 50 accepted; an entry asks for the alert's condor, a close for the order that undoes the entry's legs, and the position becomes what the reply says |
| `Service.WebService.Clear` | packages/starship_web/src/starship_web/app.py:486-494 | clearing keeps the world in order; afterwards the positions' ticket ids resolve iff no position is left |
| `History.ConfirmedMeaning` | packages/starship_web/src/starship_web/app.py:2902-2947 | the confirmation a ticket's record shows was given and nothing unconfirmed the ticket since |
| `History.PreparedMeaning` | packages/starship_web/src/starship_web/trade_tickets.py:549-561 | a prepared intent was prepared after the last successful preview |
| `History.EnrichedMeaning` | packages/starship_web/src/starship_web/trade_tickets.py:658-668 | a market snapshot was taken after the last successful preview |
| `Runs.StepKeepsTickets` | packages/starship_web/src/starship_web/app.py:2762-3029 | every operation keeps each ticket's intent, confirmation, snapshot, preview id and attempts equal to what the log says |
| `Runs.StepKeepsPositions` | packages/starship_web/src/starship_web/pine_bridge.py:879-1158 | every operation keeps every position in order and its window exact |
| `Runs.RunIsOk` | packages/starship_web/src/starship_web/app.py:2762-3029 | all of this holds in every world reachable by any interleaving of alerts and desk operations and any broker behaviour |
| `Runs.StepKeepsWorld` | packages/starship_web/src/starship_web/app.py:2762-3029 | one operation, whichever it is, keeps tickets in agreement with the log, positions in order and orders justified |
| `Runs.StepKeepsOrders` | packages/starship_web/src/starship_web/app.py:2989-3029 | every order placed is justified by the log before it |
| `Runs.ReplayIsSilent` | packages/starship_web/src/starship_web/pine_bridge.py:898-903 | in every reachable world an alert counts as a repeat iff its id is among the last 50 accepted for its position, and then nothing changes, no ticket is made and the broker is asked for nothing |
| `Runs.SubmissionStory` | packages/starship_web/src/starship_web/app.py:2989-3029 | behind every order placed: a successful preview gave the id, then the ticket was prepared, then the request was confirmed and not touched, and the order placed equals the one confirmed; contracts were matched after the preview too |
| `Witnesses.UnpreviewedOrderIsPlaced` | packages/starship_web/src/starship_web/app.py:2853-3029 | the order placed need not be one that was previewed: a concrete run of five operations whose last note places a credit order although the only preview asked for a debit order |
| `Runs.PlacedIsPreviewedIff` | packages/starship_web/src/starship_web/app.py:2853-3029 | the exact condition, in every reachable world where nothing was prepared since the last successful preview: the order placed after filling in the form is the one previewed iff that was a single credit order with the form's snapped limit, date and quantity and the ticket's present symbols, actions, sides and strikes |
| `Runs.FormRepeatsPreparedIff` | packages/starship_web/src/starship_web/app.py:2853-2899 | the same condition for an order made by an earlier preparation, in terms of what that preparation was given |
| `Runs.FormOrderIsPlaced` | packages/starship_web/src/starship_web/app.py:2853-3029 | after a preview and enrichment any form entry can be prepared, confirmed and placed without another preview |
| `Runs.AttemptsCount` | packages/starship_web/src/starship_web/trade_tickets.py:606-617 | attempts equal previews submitted plus retries whose client could not be loaded, so they equal the previews iff no retry was lost |
| `Runs.LostRetryIsCounted` | packages/starship_web/src/starship_web/app.py:2803-2814 | in every reachable world such a retry makes the count exceed the previews submitted |
| `Witnesses.LostRetryOccurs` | packages/starship_web/src/starship_web/app.py:2803-2814 | a concrete run with two attempts counted and one preview submitted |
| `Witnesses.ClosedTwice` | packages/starship_web/src/starship_web/pine_bridge.py:1018-1113 | a concrete run of an ENTRY and two CLOSE alerts that makes three tickets, two of them for closing |
| `Runs.IdsAlwaysResolve` | packages/starship_web/src/starship_web/pine_bridge.py:1018-1022 | unless the queue alone is cleared, the ticket ids of every position are found in the store |
| `Runs.ClearingBreaksIds` | packages/starship_web/src/starship_web/app.py:3075-3083 | after clearing the queue alone the ids of the positions resolve iff there is no position: every position loses its entry ticket |

## Left out

- Rendering, routes, chat messages, logging, charts and files: input and output only; the file-backed stores are maps keyed by id.
- Broker and market-data clients, tokens and streaming: the broker is a parameter that fails or answers; option chains arrive as the contracts found in them. Searching several symbols and expiries for a chain is part of that parameter.
- Request signing, webhook secret and admin credentials.
- Calendar and time-zone rules: whether a time is today, in the signal window or in trading hours, and local clock readings, are parameters.
- `log_returns`, realized volatility, volatility of volatility and expected move: they need logarithm and square root; the scenario move of the exit estimates is a parameter, its confidence label is not modelled.
- Heston gate, exit tiers, trend score buckets, regime and policy labels, severities and message texts: short tables.
- Float rounding: arithmetic is over the reals; infinities do not occur. Prices inside the indicator inputs are numbers; gaps occur in the derived series only.
- Reading an alert's payload (field aliases, auxiliary fields) beyond the derived identifier, and the slug that makes a position's id.
- Blanks and case are normalised on ASCII texts; digits in option symbols are ASCII, and the interpreter's limit on the length of printed integers is not modelled.
- Ticket fields that only travel along (leg ids, quantity types, commissions, notes, warnings, audit records, the mock execution that only adds a note) and messages inside a request are not modelled.
- A broker answer that cannot be read is a failed preview, as the surrounding handler makes it.
- Two tickets never get the same generated number where a statement says so; elsewhere a repeated number simply starts the ticket anew.
