# CandleQuest quick-choice mode, in Dafny

CandleQuest is a training game. It shows a synthetic daily candlestick chart
with its last five bars hidden. The player then has ten seconds to say whether
the price will go up, go down or stay sideways. The round is scored, the hidden
bars are revealed, and a session lasts ten rounds. This project models the game
core of the quick-choice page, `Mode2.tsx`, in three modules:

- `Candles` (`candles.dfy`): the OHLC bar and the series generator
  `generateFakeCandlestickData`. The random draws are a parameter, a sequence of
  reals in [0,1) read in the order the source calls `Math.random()`: one draw
  for the seed price, then three per bar. The generator is a loop, as in the
  source. It is proved equal to a recursive reference definition, `Bars`. That
  definition gives the length, opens each bar at the previous close, starts at
  a seed in [100,120), keeps every bar's wick around its body with positive
  prices, and dates the bars on consecutive days.
- `Outcome` (`outcome.dfy`): `calculateResult` and `calculateScore` over exact
  reals. Both go through `pct = (end - start) / start * 100`. Their contracts
  restate the rules directly on the two closes: up exactly when the end close
  is more than 105% of the start close, down exactly when it is below 95%, and
  a score in [0,100] that is 100 and 0 beyond those bounds. Lemmas prove that
  only the two closes matter, that the result and the score agree, that the
  score is monotone, and that pct = ±5 falls on the sideways side.
- `Session` (`session.dfy`): the component's React state as the class
  `Mode2`. Its methods are the handlers: start of a round, the one-second
  countdown tick, answer, next and restart. Its functions give the displayed
  accuracy and the corrected one. The object invariant `Valid` holds across
  every handler:
  - the round is between 1 and 10;
  - while playing, exactly the first 25 of the 30 bars are shown and no choice
    has been made;
  - after an answer, the whole series is shown and the stored result and score
    are those of the series;
  - the totals never exceed what the answered rounds allow.

Persistence, timers and dates become parameters:

- Whether the insert into the remote table threw is the boolean `saveThrew`.
- Each elapsed second is one call of `Tick`.
- The current day is the integer `today`; bar `i` of a `count`-bar series is
  dated `today - count + i`.

## Model

| member | source | states |
|---|---|---|
| `Candles.SeedPrice` | candle-quest-app/src/pages/Mode2.tsx:28 | the starting price lies in [100,120) for any draw in [0,1) |
| `Candles.Change` | candle-quest-app/src/pages/Mode2.tsx:35-36 | the relative change lies in [-1%, +1%), half of the 2% volatility band on each side |
| `Candles.CloseFrom` | candle-quest-app/src/pages/Mode2.tsx:38 | the close `open*(1+change)` lies in [0.99*open, 1.01*open) |
| `Candles.WithWicks` | candle-quest-app/src/pages/Mode2.tsx:39-40 | widening by the two wick draws yields `high >= max(open,close)` and `0 < low <= min(open,close)`, keeping open and close |
| `Candles.MakeBar` | candle-quest-app/src/pages/Mode2.tsx:35-53 | a bar opens at the given price, is dated on the given day, is well shaped and closes within 1% of its open |
| `Candles.Bars` | candle-quest-app/src/pages/Mode2.tsx:34-56 | the reference series: exactly `n` bars, each well shaped, the first opening at the given price, each later one opening at the previous close, dated on consecutive days |
| `Candles.BarsAt` | candle-quest-app/src/pages/Mode2.tsx:36-55 | bar `i` of the reference series is the bar built on the previous close from draws `3i..3i+2` |
| `Candles.Series` | candle-quest-app/src/pages/Mode2.tsx:26-59 | the generated series has `count` well-formed bars, its first open lies in [100,120), and it is dated `today-count` to `today-1` |
| `Candles.SeriesAt` | candle-quest-app/src/pages/Mode2.tsx:28-55 | bar `i` of the generated series is built from the seed or the previous close and from draws `1+3i..3+3i` |
| `Candles.GenerateFakeCandlestickData` | candle-quest-app/src/pages/Mode2.tsx:26-60 | the push loop returns exactly the reference series: `count` bars, chained opens, a seed in [100,120), and the wick invariant on every bar |
| `Outcome.ChangePercent` | candle-quest-app/src/pages/Mode2.tsx:64-66 | `pct * start == (end - start) * 100`; pct > 5 iff end > 1.05*start, pct < -5 iff end < 0.95*start (and the non-strict forms); pct = 0 iff end = start |
| `Outcome.Classify` | candle-quest-app/src/pages/Mode2.tsx:68-70 | up exactly when pct > 5, down exactly when pct < -5, sideways exactly on the closed band [-5, 5] |
| `Outcome.Ramp` | candle-quest-app/src/pages/Mode2.tsx:79-83 | the score lies in [0,100]; it is 100 from +5 up and 0 from -5 down, and `50 + 10*pct` inside the band |
| `Outcome.CalculateResult` | candle-quest-app/src/pages/Mode2.tsx:63-71 | on the two closes: up iff the end close is above 105% of the start close, down iff below 95%, sideways iff within [95%, 105%] |
| `Outcome.CalculateScore` | candle-quest-app/src/pages/Mode2.tsx:74-84 | the score lies in [0,100], is 100 when the end close is at least 105% of the start, 0 when at most 95%, and 50 exactly when the closes are equal |
| `Outcome.ResultAgreesWithScore` | candle-quest-app/src/pages/Mode2.tsx:66-83 | an up result scores 100 and a down result scores 0; a score of 100 is never down, and a score of 0 is never up |
| `Outcome.RampMonotone` | candle-quest-app/src/pages/Mode2.tsx:79-83 | the score is monotone non-decreasing in pct |
| `Outcome.ChangePercentMonotone` | candle-quest-app/src/pages/Mode2.tsx:77 | with a fixed positive start, pct grows with the end close |
| `Outcome.ScoreMonotoneInEndClose` | candle-quest-app/src/pages/Mode2.tsx:74-84 | with the same first close, a higher last close never scores less |
| `Outcome.OnlyEndpointsMatter` | candle-quest-app/src/pages/Mode2.tsx:63-84 | two series with the same first and last close get the same result and the same score |
| `Outcome.BoundaryConvention` | candle-quest-app/src/pages/Mode2.tsx:68-83 | pct = +5 and pct = -5 are sideways yet score 100 and 0; pct = 0 scores 50 and pct = 2 scores 70 |
| `Outcome.WorkedCases` | candle-quest-app/src/pages/Mode2.tsx:63-84 | from 100 to 106 is up with 100 points, to 94 down with 0, to 102 sideways with 70 |
| `Session.Mode2.constructor` | candle-quest-app/src/pages/Mode2.tsx:90-103 | the initial state: waiting, round 1, countdown 10, zero totals, empty series, no choice |
| `Session.Mode2.StartNewGame` | candle-quest-app/src/pages/Mode2.tsx:106-128 | a fresh 30-bar series of which exactly the first 25 are shown; playing with countdown 10; choice, result, round score, next button and error flag cleared; session totals unchanged |
| `Session.Mode2.OnUserReady` | candle-quest-app/src/pages/Mode2.tsx:131-135 | once the user is known, the waiting page starts round 1 with zero totals |
| `Session.Mode2.HandleAnswer` | candle-quest-app/src/pages/Mode2.tsx:158-216 | it does nothing unless playing with no choice yet. Otherwise it moves to result and stores the choice and the series' result. It adds the round score to the total and counts the answer exactly when it equals the result. It reveals the full series, so the shown bars only grow, and sets the error flag iff saving threw |
| `Session.Mode2.Tick` | candle-quest-app/src/pages/Mode2.tsx:138-155 | nothing happens unless playing with time left. Above 1 the countdown goes down by one and nothing else changes. At 1 it goes to 0 and the round is answered `sideways` |
| `Session.Mode2.HandleNext` | candle-quest-app/src/pages/Mode2.tsx:219-226 | below round 10 it moves to the next round and starts a fresh series with the totals kept; at round 10 it moves to finished and changes nothing else |
| `Session.Mode2.HandleRestart` | candle-quest-app/src/pages/Mode2.tsx:229-234 | round 1, zero total score and zero correct answers, and a fresh round |
| `Session.Mode2.Accuracy` | candle-quest-app/src/pages/Mode2.tsx:237 | the accuracy as written. Before the current round is answered it equals the share of answered rounds answered correctly and lies in [0,100] |
| `Session.Mode2.CompletedAccuracy` | candle-quest-app/src/pages/Mode2.tsx:237 | correct answers over answered rounds, in percent: always in [0,100] and 0 before any round is answered |
| `Session.PerfectSessionAccuracy` | candle-quest-app/src/pages/Mode2.tsx:219-237 | ten correctly answered rounds end with the as-written accuracy at 1000/9 (above 100) and the corrected accuracy at 100 |
| `Session.TimeoutAfterTenTicks` | candle-quest-app/src/pages/Mode2.tsx:138-159 | with no answer, nine ticks count down from 10, the tenth answers `sideways` and adds the round score exactly once, and an eleventh changes nothing |
| `Session.SecondAnswerIgnored` | candle-quest-app/src/pages/Mode2.tsx:159 | after a first answer, a second answer and a timer tick are ignored: the first choice stands, the round score is added once, and the correct count grows by one exactly when the first answer is right |

## Findings

| source | as written | input that shows it | evidently intended | confidence | as-written member | corrected member |
|---|---|---|---|---|---|---|
| candle-quest-app/src/pages/Mode2.tsx:237 | accuracy is `correctAnswers / (currentRound - 1) * 100`, also after the current round has been answered | ten rounds all answered correctly: the finished page shows 10/9*100 = 111.1%. Answering rounds 1 and 2 correctly shows 200% in round 2's result view | divide by the number of answered rounds: `currentRound` once the round is answered or the session is finished | not executed | `Session.PerfectSessionAccuracy` | `Session.Mode2.CompletedAccuracy` |

## Left out

- The insert into the `training_sessions` table (Mode2.tsx:187-207) is network I/O. The model keeps only its effect on the page: the boolean `saveThrew` says whether the call threw, and the error flag `saveFailed` is set exactly then. Record contents and remote state are not modelled.
- User identity (`useUser.ts`, `localStorage`, the `users` insert) is outside the core. The page's user id is assumed present once `OnUserReady` runs, so the id check at Mode2.tsx:187 always passes.
- Calendar dates (`Date`, `toISOString`, Mode2.tsx:31-45) are day numbers. Month and year rollover and time zones are not modelled.
- Interval scheduling, React effect re-runs and update batching (Mode2.tsx:138-155) are out of scope. Each elapsed second is one `Tick` call. Each handler runs to completion before the next event: the `await` inside `handleAnswer` is not an interleaving point, and ticks after the state leaves `playing` are no-ops. The double invocation of state updater functions in React's development mode is not modelled.
- `isLoading` (Mode2.tsx:161, 214) is set and then cleared by the same handler. It is false whenever no handler runs, so it is not a field.
- The `catch` blocks of `startNewGame` (Mode2.tsx:124-126) and of `handleAnswer` (Mode2.tsx:210-212) are not modelled. The generator always succeeds, and during play the series always has 30 bars with a positive first close, so neither block can be reached.
- Floating point: prices and scores are exact reals, so IEEE rounding is not modelled. The code does not round the score (Mode2.tsx:83, 174), and neither does the model. `toFixed` display rounding is presentation only.
- Outcome.CalculateResult: requires a non-empty series with a positive first close. The source throws on an empty array, and a zero start close yields IEEE infinities or NaN. A 1-bar series is classified sideways with score 50, in the code and in the model.
- Outcome.CalculateScore: same requirement as `CalculateResult`, for the same reasons.
- Session.Mode2.HandleNext: requires the `result` state. Its only caller is the next button, which is rendered only in the result view (Mode2.tsx:369, 416-419).
- Session.Mode2.HandleNext: the model keeps playing after a failed save, while the page does not. Once `error` is set (Mode2.tsx:205), the page renders only its error view (Mode2.tsx:249-265), whose one button reloads the page and so restarts at round 1; the result view and its next button are never shown again. The model leaves `saveFailed` as a flag and lets `HandleNext` continue the session, so the reload and the lost session are not captured.
- Session.Mode2.OnUserReady: requires the `waiting` state. The mount effect (Mode2.tsx:131-135) fires once, when the user id first becomes known.
- The chart widget (`KlineChart.tsx`), `StylePreview.tsx`, `App.tsx` and all JSX rendering (Mode2.tsx:240-479) are presentation.
- The random source is a parameter: every draw is assumed to lie in [0,1), as `Math.random()` promises.
