# Financial learning labs: the arithmetic core in Dafny

The repository is three interactive learning pages for small-business
finance:

- a profit-and-loss (P&L) lab;
- a financial-ratio lab;
- a balance-sheet lab.

Under their widgets sits a small layer of arithmetic, and that layer is modelled here:

- **P&L derivation** (`profit_loss.dfy`, module `ProfitLoss`):
  - `calculate_margins`, and the Learn-mode chain from line items to net income. The page defines `calculate_margins` (profit_loss_learn.py:67) but never calls it; Learn mode writes the same chain inline. `LearnStatement` states that the inline chain returns what `calculate_margins` would return on the Learn-mode totals.
  - The "% of Revenue" column and the waterfall chart's running level.
  - The profit-conditioned 20 % tax rule, in both of its written forms: the `if ebt > 0` form and the `max(0, 0.2·ebt)` form.
- **P&L challenges** (`profit_loss_challenges.dfy`, module `ProfitLossChallenges`):
  - The pizzeria rescue. Its "Execute Strategy!" handler is imperative and reassigns net income step by step.
  - The coffee-shop price war, with its projection and its three-tier verdict.
- **P&L scenarios** (`profit_loss_scenarios.dfy`, module `ProfitLossScenarios`):
  - The twelve-month pizza-restaurant table, and the year-to-date fold over it.
  - The eight-quarter mobile-app table.
  - The two trend loops. Each is a method with loop invariants.
- **Ratios** (`financial_ratios.dfy`, module `FinancialRatios`):
  - Liquidity, leverage and profitability ratios as plain quotients.
  - The traffic-light classifier `color_ratio` and the liquidity bar colours.
- **Balance sheet** (`balance_sheet.dfy`, module `BalanceSheet`):
  - The section totals and the exact-equality balance check.
  - The slider simulation, which repeats the same formulas on whole-number slider positions.

Modelling choices:

- Currency is `real`. Amounts are exact, and no claim is made about floating-point rounding.
- Where the page divides without a guard, Python would raise `ZeroDivisionError`. The model therefore carries `requires denominator != 0`.
- Where the page guards a division with `if revenue > 0 else 0`, the model keeps that guard, so negative revenue also gives a margin of 0.
- The balance check is exact `== 0`, with no tolerance.
- The page's default balance-sheet inputs are not balanced (1,000,000 against 900,000).

## Model

| member | source | states |
|---|---|---|
| ProfitLoss.Margin | profit_loss_learn.py:73-75 | a margin is 0 when revenue is not positive (negative revenue included), and otherwise margin × revenue = profit × 100 |
| ProfitLoss.MarginHasSignOfProfit | profit_loss_learn.py:73-75 | with positive revenue, a margin is positive exactly when its profit is, and negative exactly when its profit is |
| ProfitLoss.MarginMonotone | profit_loss_learn.py:73-75 | at fixed revenue, a larger profit never gives a smaller margin |
| ProfitLoss.CalculateMargins | profit_loss_learn.py:67-77 | gross = rev − cogs, operating = gross − opex, ebt = operating − interest, net = rev − cogs − opex − interest − tax; all three margins 0 when revenue ≤ 0, otherwise margin × revenue = profit × 100 |
| ProfitLoss.MarginsDescend | profit_loss_learn.py:67-75 | with non-negative opex, interest and tax: net margin ≤ operating margin ≤ gross margin |
| ProfitLoss.LearnStatement | profit_loss_learn.py:125-246 | the Learn-mode inline chain gives the same seven values as `calculate_margins` applied to the summed revenue (125), COGS (148) and opex (201) lines |
| ProfitLoss.PercentOfRevenue | profit_loss_learn.py:296-309 | an unguarded percentage cell needs revenue ≠ 0 and satisfies pct × revenue = amount × 100 |
| ProfitLoss.PercentColumnAddsUp | profit_loss_learn.py:296-309 | with revenue > 0: the unguarded EBT cell (305) equals the guarded margin of EBT; the gross, operating and net rows, printed from the guarded margins, agree with the unguarded quotients; and COGS % + opex % + interest % + tax % + net margin = 100 |
| ProfitLoss.WaterfallValues | profit_loss_learn.py:321-325 | one bar value for each of the eight measures |
| ProfitLoss.WaterfallReachesNetIncome | profit_loss_learn.py:321-325 | the chart's running level at the three total bars is gross profit, operating profit and net income |
| ProfitLoss.ProfitTax | profit_loss_learn.py:525-530 | tax is 0.2 × ebt when ebt > 0, which is below ebt, and 0 when ebt ≤ 0; so it is never negative |
| ProfitLoss.MaxTax | profit_loss_learn.py:732-733 | `max(0, 0.2·ebt)`: at least 0, at least 0.2·ebt, and equal to one of the two |
| ProfitLoss.TaxFormsAgree | profit_loss_learn.py:732 | the `max` form of the tax equals the `if ebt > 0` form for every ebt |
| ProfitLoss.AfterTax | profit_loss_learn.py:525-530 | net > 0 exactly when ebt > 0; net ≤ ebt; net = 0.8·ebt above 0 and net = ebt otherwise |
| ProfitLoss.AfterTaxMonotone | profit_loss_learn.py:525-530 | higher ebt never gives lower after-tax profit |
| ProfitLoss.Settle | profit_loss_learn.py:427-438 | the flat profit chain; tax and net are the tax rule applied to ebt (0.2 × ebt and 0.8 × ebt when ebt > 0, 0 and ebt otherwise); tax ≥ 0 and net + tax = ebt; net > 0 exactly when ebt > 0 |
| ProfitLossChallenges.ExecuteStrategy | profit_loss_learn.py:397-438 | the step-by-step handler, which reassigns net income, ends in the tax rule's outcome for the chosen strategy's figures |
| ProfitLossChallenges.BaselineMatchesBeforeColumn | profit_loss_learn.py:466 | last month's figures settle to the "Before" column: gross 30,000, operating −15,000, tax 0, net −18,000 |
| ProfitLossChallenges.OnlyRaisingPriceTurnsAProfit | profit_loss_learn.py:399-438 | a strategy ends in a profit exactly when it is "Raise pizza price", which nets 1,600 after 400 of tax |
| ProfitLossChallenges.CoffeeProjection | profit_loss_learn.py:515-532 | revenue = volume × price, COGS = volume × 1.5, opex = 20,000 + marketing, interest = 1,000; ebt = volume·(price − 1.5) − 20,000 − marketing − 1,000; tax and net follow the tax rule; revenue − total expenses = net; net margin is the guarded margin of net over revenue |
| ProfitLossChallenges.CoffeeVerdict | profit_loss_learn.py:542-563 | every net income falls in exactly one tier: winning above 11,000, surviving in (0, 11,000], losing at or below 0 |
| ProfitLossChallenges.VerdictByEbt | profit_loss_learn.py:525-563 | the same tiers read off ebt, with 13,750 as the winning threshold |
| ProfitLossChallenges.PriceNeverLowersEbt | profit_loss_learn.py:515-523 | at fixed non-negative volume and fixed marketing, a higher price never lowers ebt |
| ProfitLossChallenges.HigherPriceNeverHurts | profit_loss_learn.py:515-530 | at fixed non-negative volume and fixed marketing, a higher price never lowers net income |
| ProfitLossChallenges.CoffeeStartingPoints | profit_loss_learn.py:490-512 | the sliders' start (7,000 coffees at $5) nets 2,800 and is "Surviving"; the month before the competitor (10,000 coffees) has revenue 50,000 and nets 11,200, a net margin of 22.4 % |
| ProfitLossScenarios.MonthOutcome | profit_loss_learn.py:708-733 | a month's figures from the table, settled with interest 2,000 and the `max` tax rule |
| ProfitLossScenarios.FirstProfitableMonthIsFour | profit_loss_learn.py:708-733 | a month's net income is positive exactly from month 4 on |
| ProfitLossScenarios.YearToDateAt | profit_loss_learn.py:758-764 | cumulative revenue, COGS and opex are the column sums over months 1..month; cumulative interest = 2,000 × month; cumulative ebt equals the sum of the per-month `m_ebt` values of the trend loop (784-788); cumulative tax and profit follow the tax rule on cumulative ebt; revenue − total expenses = profit |
| ProfitLossScenarios.CumulativeEbtUpTo | profit_loss_learn.py:758-762 | the summed revenue, COGS and opex columns, less interest, equal the sum of the monthly ebt values |
| ProfitLossScenarios.TaxOnSumsUpTo | profit_loss_learn.py:763-790 | tax on the summed ebt is at most the sum of the monthly taxes, and summed ebt = summed tax + summed profit |
| ProfitLossScenarios.PooledTaxAtMostMonthlyTaxes | profit_loss_learn.py:758-791 | year-to-date tax ≤ the sum of monthly taxes, and year-to-date profit ≥ the sum of monthly profits |
| ProfitLossScenarios.SumMonthlyEbtValues | profit_loss_learn.py:708-720 | the running ebt totals for months 1 to 12, from −14,000 to 14,000 |
| ProfitLossScenarios.YearBreaksEvenAtMonthTen | profit_loss_learn.py:758-764 | after month 10, year-to-date ebt and profit are exactly 0 |
| ProfitLossScenarios.YearTurnsProfitableAtMonthEleven | profit_loss_learn.py:758-776 | year-to-date profit is positive exactly from month 11 on |
| ProfitLossScenarios.MonthlyTrend | profit_loss_learn.py:781-791 | the trend loop gives one revenue and one profit per month so far, each equal to that month's revenue and net income |
| ProfitLossScenarios.QuarterOutcome | profit_loss_learn.py:849-857 | cogs = 0.15 × revenue, gross profit = revenue − cogs, operating profit = gross profit − opex, net income = operating profit, so net = 0.85 × revenue − opex |
| ProfitLossScenarios.FirstProfitableQuarterIsSix | profit_loss_learn.py:838-857 | net income is positive exactly from quarter 6 on; quarter 5 loses 46,000 |
| ProfitLossScenarios.YearOf | profit_loss_learn.py:859 | the label `(quarter−1)//4 + 1` is 1 for Q1–Q4 and 2 for Q5–Q8 |
| ProfitLossScenarios.RevenuePerUser | profit_loss_learn.py:870 | ARPU is 0 without users, and otherwise ARPU × users = revenue |
| ProfitLossScenarios.UserGrowth | profit_loss_learn.py:864 | no delta in quarter 1; afterwards the delta is this quarter's users less last quarter's |
| ProfitLossScenarios.UsersGrowEveryQuarter | profit_loss_learn.py:838-864 | every quarter has users, and every delta after quarter 1 is positive |
| ProfitLossScenarios.QuarterlyTrend | profit_loss_learn.py:886-894 | the trend loop gives one users, revenue and profit entry per quarter so far, each equal to that quarter's figures and net income |
| FinancialRatios.CurrentRatio | financial_ratio_learn.py:48 | needs current liabilities ≠ 0; ratio × current liabilities = current assets |
| FinancialRatios.QuickRatio | financial_ratio_learn.py:49 | needs current liabilities ≠ 0; ratio × current liabilities = current assets − inventory |
| FinancialRatios.QuickAtMostCurrent | financial_ratio_learn.py:48-49 | with inventory ≥ 0 and current liabilities > 0, quick ≤ current, with equality exactly when inventory is 0 |
| FinancialRatios.ColorRatio | financial_ratio_learn.py:51-57 | green iff val ≥ optimal; yellow iff 1 ≤ val < optimal; red iff val < 1 and val < optimal |
| FinancialRatios.RedMeansBelowOne | financial_ratio_learn.py:51-59 | with optimal ≥ 1 (the default 1.5 included), red means exactly val < 1 |
| FinancialRatios.QuickRatioNeverYellow | financial_ratio_learn.py:60 | with optimal = 1, the light is never yellow, and it is green exactly from 1 up |
| FinancialRatios.LiquidityBarColours | financial_ratio_learn.py:67 | a bar is green exactly when its ratio's light is green (1.5 for current, 1 for quick) |
| FinancialRatios.DebtToEquity | financial_ratio_learn.py:84 | needs equity ≠ 0; ratio × equity = total liabilities |
| FinancialRatios.DebtToAssets | financial_ratio_learn.py:85 | needs total assets ≠ 0; ratio × total assets = total liabilities |
| FinancialRatios.ProfitabilityRatios | financial_ratio_learn.py:112-116 | needs revenue, total assets and equity ≠ 0; each of the five ratios times its denominator is its numerator |
| FinancialRatios.OperatingMarginAtMostGross | financial_ratio_learn.py:112-113 | with positive revenue and non-negative opex, operating margin ≤ gross margin |
| FinancialRatios.MarginsAgreeWithStatement | financial_ratio_learn.py:112-114 | fed the P&L chain's net income, the three margins are the P&L page's margins divided by 100 |
| FinancialRatios.PageRatios | financial_ratio_learn.py:46-116 | all three tabs together need all four denominators ≠ 0; the profitability tab is `ProfitabilityRatios` on the page's inputs, and each of the nine ratios times its denominator is its numerator |
| FinancialRatios.InterestAndTaxFeedNoRatio | financial_ratio_learn.py:34-35 | changing interest or tax expense changes no ratio |
| FinancialRatios.DefaultRatios | financial_ratio_learn.py:17-36 | the defaults give current 2.0, quick 1.6 (both green), D/E 1.5, D/A 0.6, ROA 0.125, ROE 0.3125; default net income equals revenue less all costs |
| BalanceSheet.Derive | balance_sheet_learn.py:27-59 | each section total is the sum of its lines; L+E = liabilities + equity; check = assets − (L+E) |
| BalanceSheet.BalancedIffIdentity | balance_sheet_learn.py:58-64 | "Balanced" is shown exactly when assets = liabilities + equity |
| BalanceSheet.DefaultsAreNotBalanced | balance_sheet_learn.py:19-64 | the defaults give assets 1,000,000 against 900,000, a difference of 100,000, so "Not Balanced" is shown |
| BalanceSheet.RaisingOneLine | balance_sheet_learn.py:27-59 | raising one line by d raises only its own section total by d; the check moves by +d for an asset and −d otherwise |
| BalanceSheet.Simulate | balance_sheet_learn.py:112-122 | the simulation computes the main formulas on the slider values, and no simulated total is negative |
| BalanceSheet.WholePart | balance_sheet_learn.py:98 | `int(x)` on x ≥ 0 is the whole part: n ≤ x < n + 1 |
| BalanceSheet.SimulationStartsAtMainTotals | balance_sheet_learn.py:98-122 | with whole, non-negative inputs and untouched sliders, the simulated totals and check equal the main ones |
| BalanceSheet.SliderStartWithinRange | balance_sheet_learn.py:98-109 | each slider's start `int(amount)` is at most its maximum `int(2 × section total)` |

## Left out

- Rendering is not modelled: Streamlit widgets, CSS, metrics, data frames, Plotly charts, balloons, columns and expanders.
- Widget range semantics are not modelled. A number input accepts any amount. The balance-sheet sliders' start positions are modelled only for non-negative amounts, because a slider cannot start below its minimum of 0.
- `format_currency`, the f-string formatting and the `:.0s` formatting of the quick-ratio light (financial_ratio_learn.py:60) are presentation.
- Floating-point rounding is not modelled: amounts are exact reals.
- The session-state `game_mode` and `game_score` (profit_loss_learn.py:59-62) are UI navigation, and the score is never updated.
- Narrative text is not modelled, and it disagrees with the arithmetic in two places:
  - Option A's profit is "$5,400" at profit_loss_learn.py:623 but "$5,600" at profit_loss_learn.py:674.
  - Quarter 5 is called "First profitable quarter!" (profit_loss_learn.py:843), but its formula gives −46,000. The first profitable quarter is 6, as `FirstProfitableQuarterIsSix` states.
- The ratio page's "Scenario Simulation" sliders (financial_ratio_learn.py:149-151) are left out: their values are never read.
- Challenge 3 is constant text, and challenges 4 and 5 are menu labels only. None of them is modelled.
- The coffee shop's "Key Metrics" panel (profit_loss_learn.py:593-596) is left out. Its gross and operating margins (593-594) divide by revenue without a guard, and the challenge computes them nowhere else. Line 595 prints the guarded net margin unchanged. Line 596 divides net income by sales volume.
- The "Burn Rate"/"Profit" label (profit_loss_learn.py:867) is presentation.
- The gym and e-commerce journeys (profit_loss_learn.py:698-699) are menu options with no branch of their own.
- ProfitLoss.WaterfallValues: its own contract states only the number of bars. What the bars add up to is stated by `WaterfallReachesNetIncome`.
- The stories' names, dates and prose are left out.
