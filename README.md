# Fair odds calculator: margin removal and expected value

A model of the computing core of the fair odds calculator, a React
component that removes a bookmaker's margin from quoted decimal odds and
evaluates the expected value of a bet at the user's own odds.

- `Text` (`text.dfy`): `toNum`, which replaces the first decimal comma by a
  period before parsing, and the decimal rounding of `toFixed` that the
  component applies when it shows fair odds and when it stores the expected
  value.
- `Margin` (`margin.dfy`): the arithmetic of `calc` over exact reals:
  implied probabilities `1/odds`, their left-fold sum, the overround
  `sum - 1`, the payout `1 - overRound`, fair probabilities `p/sum` and fair
  odds `1/fairP`, with the properties of the result (a distribution summing
  to exactly 1, fair odds reciprocal to fair probabilities and equal to the
  quoted odds times the sum, ratios kept, payout against `1/sum`).
- `Expectation` (`expectation.dfy`): the mapping from the typed selection
  to an outcome index, and the expected value `userOdds * (1/fairOdds) - 1`
  with its sign and its rounded, displayed form.
- `Calculator` (`calculator.dfy`): the component's state (`tab`, the odds
  texts, `results`, `pick`, `myOdds`, `ev`) as a class; `Calc` and `CalcEV`
  change it as the two handlers do, with their early returns that leave the
  state alone.

The odds are parsed by `parseFloat`, which the model takes as a parameter
`parse: string -> real` of `Calc` and `CalcEV`.

What the component does, and the model with it:
- it knows three markets, `1x2`, `asian` and `ou`; any other tab leaves the
  stored book alone;
- it never rejects odds at or below 1; the model only asks that the parsed
  odds be positive, so that `1/odds` exists;
- the payout it shows is `1 - overRound = 2 - sum`, not `1/sum`:
  `Margin.PayoutAgainstReciprocal` proves it is at most `1/sum` and equal
  only when `sum == 1`;
- a selection that is no caption of the active market selects the market's
  last outcome (`Expectation.PickIndexFallThrough`);
- `calcEV` reads back the fair odds as shown with two decimals, not the
  exact fair odds, and keeps the expected value rounded to three decimals;
  a stale book computed on another tab is used as it is, as the example
  session `Calculator.SwitchedMarketSession` shows.

## Model

| member | source | states |
|---|---|---|
| `Text.ReplaceFirst` | src/components/FairOddsCalculator.jsx:96 | the length is kept, text without the pattern is unchanged, and every position either keeps its character or turned the pattern into the replacement |
| `Text.ReplaceFirstAt` | src/components/FairOddsCalculator.jsx:96 | exactly the first comma becomes a period; every other position, later commas included, is unchanged |
| `Text.ReplaceFirstSplit` | src/components/FairOddsCalculator.jsx:96 | with no comma before it, the comma at the split becomes a period and the text after it passes unchanged |
| `Text.ToNum` | src/components/FairOddsCalculator.jsx:95-99 | text without a comma is parsed as it is |
| `Text.DecimalComma` | src/components/FairOddsCalculator.jsx:95-99 | a decimal comma parses as the decimal point; commas after it reach the parser unchanged |
| `Text.Rounded` | src/components/FairOddsCalculator.jsx:107-110 | the integer written by `toFixed(d)` is within half a unit of `x * 10^d`, a tie going away from zero, and at least `10^d` when `x >= 1` |
| `Text.ToFixed` | src/components/FairOddsCalculator.jsx:130 | the fair odds read back from their two-decimal text are within half a unit of the last digit, and stay at least 1 when they were |
| `Text.ToFixedPositive` | src/components/FairOddsCalculator.jsx:133 | a value rounded to `d` decimals is positive exactly when the value is at least half a unit of the last digit |
| `Margin.Implied` | src/components/FairOddsCalculator.jsx:59 | one implied probability per outcome, positive, with `p[i] * odds[i] == 1` |
| `Margin.Scale` | src/components/FairOddsCalculator.jsx:78 | one entry per entry, each times the divisor giving back the original |
| `Margin.Reciprocals` | src/components/FairOddsCalculator.jsx:79 | one positive entry per entry, each the reciprocal of the original |
| `Margin.SumPositive` | src/components/FairOddsCalculator.jsx:76 | the sum of positive implied probabilities is non-negative, and positive for a non-empty book |
| `Margin.ElementAtMostSum` | src/components/FairOddsCalculator.jsx:76 | each positive implied probability is at most their sum |
| `Margin.SumScale` | src/components/FairOddsCalculator.jsx:76-78 | dividing every implied probability by `c` divides their sum by `c` |
| `Margin.ElementBelowSum` | src/components/FairOddsCalculator.jsx:76 | with two outcomes or more, each implied probability is below the sum |
| `Margin.FairFrom` | src/components/FairOddsCalculator.jsx:76-83 | the sum is positive, the overround is `sum - 1`, there is one fair probability in (0, 1] and one fair odds value at least 1 per outcome |
| `Margin.FairProbabilitiesSumToOne` | src/components/FairOddsCalculator.jsx:76-78 | the fair probabilities add up to exactly 1 |
| `Margin.FairProbabilitiesBelowOne` | src/components/FairOddsCalculator.jsx:78 | with two outcomes or more, each fair probability lies strictly between 0 and 1 |
| `Margin.FairOddsInverse` | src/components/FairOddsCalculator.jsx:79 | fair odds times fair probability is 1 for every outcome |
| `Margin.FairOddsFromQuoted` | src/components/FairOddsCalculator.jsx:76-79 | fair odds are the quoted odds times the sum, so they are at least the quoted odds exactly when the sum is at least 1 |
| `Margin.RatiosPreserved` | src/components/FairOddsCalculator.jsx:78 | the ratio of two fair probabilities equals the ratio of the implied ones |
| `Margin.PayoutAgainstReciprocal` | src/components/FairOddsCalculator.jsx:77-83 | the payout is `2 - sum`, never above `1/sum`, and equal to it exactly when the sum is 1 |
| `Margin.OpeningBook` | src/components/FairOddsCalculator.jsx:10-12 | for the opening odds 1.66 / 3.80 / 5.00 the sum is 8402/7885 and each fair price is the quoted price times that sum |
| `Expectation.OutcomeLabels` | src/components/FairOddsCalculator.jsx:279 | three captions for 1X2, two for every other tab |
| `Expectation.PickIndex` | src/components/FairOddsCalculator.jsx:116-123 | the index is below 3, below 2 outside 1X2, and 0 exactly when the first caption was typed |
| `Expectation.PickIndexOfLabel` | src/components/FairOddsCalculator.jsx:116-123 | typing a caption of the active market selects that caption's outcome |
| `Expectation.PickIndexFallThrough` | src/components/FairOddsCalculator.jsx:116-123 | any other text selects the market's last outcome |
| `Expectation.ExpectedValue` | src/components/FairOddsCalculator.jsx:131-132 | the expected value plus the returned stake, times the fair odds, gives back the user's odds |
| `Expectation.ExpectedValueSign` | src/components/FairOddsCalculator.jsx:131-132 | the expected value is positive, zero or negative exactly when the user's odds are above, at or below the fair odds |
| `Expectation.ExpectedValueOfFairOutcome` | src/components/FairOddsCalculator.jsx:131-132 | against a computed book the expected value is the user's odds times the fair probability, minus 1 |
| `Expectation.ShownExpectedValueFavourable` | src/components/FairOddsCalculator.jsx:130-133 | the stored value is above 0, and the bet shown as favourable, exactly when `2000 * userOdds >= 2001 * shownFairOdds` |
| `Expectation.EvenMoneyExample` | src/components/FairOddsCalculator.jsx:130-133 | fair odds 2.00 taken at 2.20 store an expected value of 0.1 |
| `Calculator.FairOddsCalculator.constructor` | src/components/FairOddsCalculator.jsx:7-21 | the initial tab, odds texts, selection, and no book and no expected value |
| `Calculator.FairOddsCalculator.MarketOdds` | src/components/FairOddsCalculator.jsx:55-74 | odds exist exactly for the three known tabs, three of them for 1X2 and two for Asian handicap and Over/Under |
| `Calculator.FairOddsCalculator.Calc` | src/components/FairOddsCalculator.jsx:51-87 | for a known tab the stored book is the fair result of the implied probabilities of the tab's parsed odds; for any other tab it is unchanged; every stored book keeps fair odds of at least 1 |
| `Calculator.FairOddsCalculator.CalcEV` | src/components/FairOddsCalculator.jsx:113-134 | without a book, without odds text, or with the selection past the book's outcomes the expected value is unchanged; otherwise it is the rounded expected value against the shown fair odds of the selected outcome; the book is never changed |
| `Calculator.OpeningBookShown` | src/components/FairOddsCalculator.jsx:81-83 | the opening book shows a margin of 6.56% and fair odds 1.77, 4.05 and 5.33 |

## Left out

- `Calculator.FairOddsCalculator.Calc`: requires the parsed odds of the active market to be positive; the component divides by whatever `parseFloat` returns, so zero gives `Infinity` and unparsable text gives `NaN`, neither of which the model represents.
- `parseFloat` is a parameter of `Calc` and `CalcEV`; what it makes of a text (including `NaN`) is not modelled.
- Floating point: all arithmetic is over exact reals; rounding of each JavaScript operation is not modelled. `toFixed` is modelled over the exact value, without its switch to exponent notation for magnitudes of 10^21 and above.
- The stored book holds the exact numbers; the component holds them as formatted strings (`fmtPct`, `fmt2`). The model applies the two-decimal rounding where `calcEV` reads the fair odds back, and the percentage strings are only stated in `Calculator.OpeningBookShown`.
- The stored expected value is its number, not its three-decimal text.
- Rendering, the tab buttons and the input handlers that set `tab`, the odds texts, `pick` and `myOdds` (they are plain fields of the class), the theme and its `localStorage` persistence, `console.log` calls, and the `testCalc` wrapper, which only calls `calc`.
- Markets other than `1x2`, `asian` and `ou`, a check of odds at or below 1, and an error for an unrecognised selection: the component has none of them, so neither does the model.
