# Investment calculator: return calculation and allocation summary

A Dafny model of the arithmetic core of a single-page investment planner. A
user splits money across gold, bank fixed deposits (FDs) and the Nifty 50
index. The planner projects a flat-growth return: 5% on gold, the FD rate
table's percentage on each deposit, and 10% on Nifty 50. It reports a total
investment and a total expected return, and reduces the allocation to the
three slice sizes of a pie chart.

Amounts and rates are Dafny `real`s, which are exact rationals. Python
dictionaries are modelled as `PyDict.Dict`, which pairs a key order
(insertion order, the order `.items()` visits) with a finite map.
`PyDict.WellFormed` states what a real dict always satisfies: the order lists
each key of the map exactly once. `Portfolio.TableWellFormed` says the same of
a table and each of its rows. The return calculation is defined for any pair,
so most facts hold without it. It is required only where a fact depends on
it: the loop method, which reads `row[tenure]` for each listed tenure, and
the lemmas about reordering and about sums over every key.

Modules:

- `PyDict`: the dictionary type.
- `Sums`: left-to-right sums over a key sequence, together with their
  algebra: appending a term, removing one, reordering, congruence,
  monotonicity and domination.
- `Portfolio`: allocations, rate tables, errors and totals.
- `Returns`: `calculate_returns`. It is defined as a recursive function
  mirroring the outer loop and as the double loop itself, both tied to
  one reference sum.
- `ReturnProperties`: all-inputs facts about `calculate_returns`.
- `Summary`: the pie-chart sizes.
- `FdRates`: the constant rate table and end-to-end facts against it.

Errors are values. `calculate_returns` returns `Err(...)` where the Python
code raises, in three cases:

- `PriceUnavailable`: the price is `None`.
- `ZeroPrice`: the price is `0`.
- `MissingBank(b)`: `b` is the first bank, in rate-table order, that the
  inner loop looks up in an allocation that lacks it.

The lookup at line 44 sits inside the inner loop. So a bank whose rate row is
empty is never looked up and cannot cause the error. The model keeps this.

The reported `total_investment` adds the raw gold and Nifty 50 amounts to the
already grown FD total. The model reproduces this as written.
`ReturnProperties.GainIsGoldAndNifty` states the consequence: the reported
gain is exactly 5% of gold plus 10% of Nifty 50, so FD interest never appears
in it.

## Model

| member | source | states |
|---|---|---|
| `Returns.GoldReturn` | V2_investment_calculator.py:40 | for every non-zero spot price the gold leg is the gold amount times 1.05: the price cancels |
| `Returns.FdLoop` | V2_investment_calculator.py:41-45 | the first n iterations of the outer loop; whenever they raise, the KeyError names a bank that has a non-empty rate row and is missing from the allocation (the lemmas below give the rest of its meaning) |
| `Returns.FdLoopCompletes` | V2_investment_calculator.py:41-45 | the first n banks of the rate table are processed without a KeyError exactly when none of them has a non-empty rate row and no allocation row |
| `Returns.FdLoopTotal` | V2_investment_calculator.py:41-45 | when the first n banks finish, the running total is the sum over them of their matched grown legs |
| `Returns.FdLoopFirstError` | V2_investment_calculator.py:42-44 | when the first n banks raise, the KeyError names the first of them with a non-empty rate row and no allocation row |
| `Returns.FdLoopErrorSticks` | V2_investment_calculator.py:42-44 | once a bank has raised, later banks change nothing: the outcome stays that error |
| `Returns.FdLoopStep` | V2_investment_calculator.py:42-45 | from a running total, visiting the next bank either raises the KeyError naming it (non-empty rate row, no allocation row) or adds that bank's matched grown legs |
| `Returns.FdReturns` | V2_investment_calculator.py:41-45 | `fd_returns` is the sum, over each (bank, tenure) of the rate table whose tenure the allocation holds for that bank, of amount × (1 + rate/100); it fails exactly when some bank with a non-empty rate row is missing from the allocation, naming the first such bank |
| `Returns.FdReturnsLoop` | V2_investment_calculator.py:41-45 | the imperative outer loop over a well-formed rate table ends in the outcome of the recursive definition over all its banks, hence in the outcome `Returns.FdReturns` characterises |
| `Returns.BankLoop` | V2_investment_calculator.py:43-45 | the inner loop for one bank raises exactly when its rate row is non-empty and the allocation lacks the bank, naming that bank; otherwise it adds the bank's matched grown legs to the running total |
| `Returns.CalculateReturns` | V2_investment_calculator.py:39-49 | no price gives PriceUnavailable, a zero price gives ZeroPrice; otherwise success exactly when no bank lookup fails, with investment = gold + FD total + nifty and expected = 1.05·gold + FD total + 1.10·nifty |
| `ReturnProperties.PriceCancels` | V2_investment_calculator.py:40 | any two non-zero gold prices give identical outcomes |
| `ReturnProperties.GainIsGoldAndNifty` | V2_investment_calculator.py:46-48 | expected − investment = 0.05·gold + 0.10·nifty, so expected ≥ investment whenever gold and nifty are non-negative |
| `ReturnProperties.LegGrows` | V2_investment_calculator.py:45 | a non-negative amount at a non-negative rate does not shrink when grown |
| `ReturnProperties.GrowthBounds` | V2_investment_calculator.py:42-45 | with non-negative amounts and rates the FD total is at least the matched principal, which is non-negative |
| `ReturnProperties.TotalsNonnegative` | V2_investment_calculator.py:42-48 | with non-negative amounts and rates the investment is non-negative and the expected return is at least the investment |
| `ReturnProperties.FdReturnsReadsRatedLegs` | V2_investment_calculator.py:42-45 | two FD allocations that agree on the banks and rated tenures of the table give the same FD outcome, error included |
| `ReturnProperties.FdLoopReadsRatedLegs` | V2_investment_calculator.py:42-45 | the same after the first n banks of the rate table |
| `ReturnProperties.OnlyRatedLegsMatter` | V2_investment_calculator.py:39-49 | unrated allocation tenures and banks absent from the rate table do not affect the result |
| `ReturnProperties.FdOrderIrrelevant` | V2_investment_calculator.py:42-45 | reordering the banks or tenures of the rate table changes neither whether the FD loop succeeds nor its total |
| `ReturnProperties.CalculationOrderIrrelevant` | V2_investment_calculator.py:39-49 | reordering the rate table preserves success and, on success, the totals |
| `Summary.FdTotal` | V2_investment_calculator.py:53 | `fd_total`, the sum of every amount under every bank and tenure, is non-negative when the amounts are |
| `Summary.Sizes` | V2_investment_calculator.py:52-54 | three sizes, one per chart label: gold, `fd_total`, Nifty 50; all three are non-negative when gold, Nifty 50 and every FD amount are |
| `Summary.ZeroAllocation` | V2_investment_calculator.py:53-54 | an all-zero allocation yields [0, 0, 0] |
| `Summary.FdTotalOrderIrrelevant` | V2_investment_calculator.py:53 | `fd_total`, hence the FD slice, is the same for two well-formed allocations with the same banks, tenures and amounts listed in different orders |
| `Summary.FdTotalIsMatchedPrincipal` | V2_investment_calculator.py:41-53 | for well-formed tables where the rate table rates exactly the allocation's banks and tenures, the chart's FD slice equals the principal that `calculate_returns` grows (computed by its own loop over the rate table) |
| `Summary.FdSliceCoversMatchedPrincipal` | V2_investment_calculator.py:41-53 | with non-negative amounts the FD slice is at least the principal that the return calculation grows |
| `FdRates.RateTableWellFormed` | V2_investment_calculator.py:26-29 | the constant rate table is a well-formed dict of well-formed rows; `FdRates.RatedSliceGrows` uses this to apply `Summary.FdTotalIsMatchedPrincipal` to it |
| `FdRates.SbiReturns` | V2_investment_calculator.py:26-29 | against the constant table the FD loop succeeds exactly when the allocation has an SBI row (otherwise it fails naming SBI), and it then yields 1.075 × the SBI amounts of the three rated tenures |
| `FdRates.FormTotals` | V2_investment_calculator.py:91-97 | for the allocation the form builds and any non-zero price: investment = gold + 1.075·(sum of SBI amounts) + nifty, expected = 1.05·gold + 1.075·(sum of SBI amounts) + 1.10·nifty |
| `FdRates.WorkedExample` | V2_investment_calculator.py:39-49 | gold 1000, SBI "1 Year" 2000, nifty 1500 at price 6000 gives investment 4650 and expected return 4850 |
| `FdRates.SbiPrincipal` | V2_investment_calculator.py:26-29 | against the constant table, for an allocation with an SBI row, the principal the calculation grows is the sum of the SBI amounts of the three rated tenures |
| `FdRates.RatedSliceGrows` | V2_investment_calculator.py:26-29 | for a well-formed allocation holding exactly the legs the constant table rates, the chart's FD slice is the grown principal, and the FD return succeeds with 1.075 × that slice |
| `FdRates.FormAllocationRated` | V2_investment_calculator.py:64-70 | the allocation the form builds is well formed and holds exactly the banks and tenures the constant table rates |
| `FdRates.FormSliceGrows` | V2_investment_calculator.py:91-100 | for the form's allocation the FD return succeeds and is 1.075 × the FD slice the chart shows |

## Left out

- `fetch_gold_price`: an HTTP request and JSON parsing. Its outcome enters the model as the `Option<real>` price parameter of `CalculateReturns`.
- `fetch_nifty50_data`: a library download whose result is only displayed. The 10% Nifty 50 growth is a constant and does not depend on it.
- `investment_calculator` and the `__main__` guard: form widgets, headings and the button. Only the allocation shape the form builds is kept, in `FdRates.FormAllocation`.
- The `plt.pie` and `st.pyplot` rendering and the `:,.2f` currency formatting: presentation only.
- Floating-point rounding: amounts are exact reals, so Python's float results are not reproduced bit for bit.
- A non-numeric price other than `None` (a string from a malformed response, say): the price is modelled as a number or nothing.
- `ReturnProperties.CalculationOrderIrrelevant`: when the calculation fails, reordering the rate table can change which missing bank the error names. The lemma therefore only claims equal outcomes on success.
