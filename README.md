# Agent fee calculator — Dafny model

This project models a browser form that computes a real-estate agent's
commission on a progressive scale. The agent gets a fixed amount when the
home sells at the minimum sales price. Above that minimum, the agent also
gets a ratio-scaled share of the surplus. A final price below the minimum is
an error.

The model has two modules:

- `FeeRule` (`fee_rule.dfy`) is the pure commission rule `CalculateAgentFee`.
  It returns a tagged result, `Fee(amount)` or `InvalidPriceRange`. Lemmas
  state its branch behaviour, its progressive shape and what the unchecked
  ratio allows.
- `Calculator` (`calculator.dfy`) is the component's state. The class
  `AgentFeeCalculator` has four text fields and the stored result `agentFee`.
  Its method `CalculateFee` is the button handler. The method is proved
  against the value-level function `Calculated`, and lemmas about
  `Calculated` state idempotence and independence from the previous result.

Numbers are exact `real`s. The browser's text-to-number parsing is a
parameter `parse: string -> real`. A field counts as blank when its text is
empty, because the empty string is the only falsy text value.

The source returns the error as a message string on the same path as the
numeric fee (src/App.js:23). The model returns `InvalidPriceRange` instead, so
an error can never be read as an amount. The stored result is
`Option<FeeResult>`. `None` stands for the initial empty result (src/App.js:9).

## Model

| member | source | states |
|---|---|---|
| FeeRule.CalculateAgentFee | src/App.js:11-25 | The result is an error exactly when the final price is below the minimum, for every ratio. Every numeric result, including the one exactly at the minimum, equals the fixed amount plus (final − minimum) × ratio, so the two numeric branches agree at the boundary. |
| FeeRule.FeeAtMinimum | src/App.js:17-18 | A sale exactly at the minimum yields the fixed amount, whatever the ratio. |
| FeeRule.BelowMinimumIsError | src/App.js:22-23 | A sale below the minimum yields `InvalidPriceRange` and never a numeric fee. |
| FeeRule.FeeAtLeastConstant | src/App.js:17-21 | With ratio ≥ 0, a valid sale pays at least the fixed amount. |
| FeeRule.FeeIncreasesWithPrice | src/App.js:17-21 | With ratio ≥ 0, the fee does not decrease as the final price rises from the minimum. With ratio > 0, it strictly increases. |
| FeeRule.LabelledRatioSharesSurplus | src/App.js:19-21 | With a ratio in the labelled range 0 to 1, the seller's proceeds after the fee are at least the minimum less the fixed amount, and they do not decrease as the final price rises. |
| FeeRule.RatioAboveOneExceedsSurplus | src/App.js:19-21 | The ratio is not range-checked: a ratio above 1 still yields a numeric fee, and above the minimum that fee takes more than the whole surplus. |
| FeeRule.Examples | src/App.js:11-25 | Worked cases: (100000, 100000, 2000, 0.1) gives 2000; (150000, 100000, 2000, 0.1) gives 7000; (90000, 100000, 2000, 0.1) gives the error; all zeros give 0; ratio 1 on a 100000 surplus with no fixed amount gives 100000. |
| Calculator.Calculated | src/App.js:27-40 | Pressing the button never changes the four fields. With a blank field the whole state is unchanged, so the previous result stays. With all fields filled, the stored result is the rule applied to the parsed fields. |
| Calculator.CalculateTwiceIsOnce | src/App.js:27-40 | Calculating a second time in a row changes nothing more. |
| Calculator.ResultIgnoresPreviousFee | src/App.js:33-39 | On a complete form, the new state depends only on the four fields and not on the result stored before. |
| Calculator.AgentFeeCalculator.constructor | src/App.js:5-9 | Every field starts as empty text and no result is stored. |
| Calculator.AgentFeeCalculator.SetFinalPurchasePrice | src/App.js:67 | Only the final purchase price changes, to the entered text. |
| Calculator.AgentFeeCalculator.SetMinimumAllowed | src/App.js:59 | Only the minimum sales price changes, to the entered text. |
| Calculator.AgentFeeCalculator.SetConstantAmount | src/App.js:76 | Only the fixed amount changes, to the entered text. |
| Calculator.AgentFeeCalculator.SetRatio | src/App.js:85 | Only the ratio changes, to the entered text. |
| Calculator.AgentFeeCalculator.CalculateFee | src/App.js:27-40 | Only `agentFee` may change, and the new state is `Calculated` of the old one. A blank field keeps the old result. A complete form stores the rule's result for the parsed fields. |

## Left out

- Rendering, styling, the descriptive text and the button wiring (src/App.js:1-4, 42-98): presentation with no logic.
- The `alert` shown for a blank field (src/App.js:29): browser I/O. It is modelled only as "the state is unchanged".
- Number parsing (src/App.js:34-37): a parameter `parse`, not the browser's lenient float parsing. A number input only yields empty text or a number's text, so `parse` is total; a non-number (`NaN`) is not modelled.
- Floating-point rounding in `difference * ratio` (src/App.js:20-21): the model uses exact `real` arithmetic.
- Showing the result only when it is truthy (src/App.js:91), which hides a fee of 0: a presentation quirk, not modelled.
- The message text of the error (src/App.js:23): replaced by the tag `InvalidPriceRange`.
