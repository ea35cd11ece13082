/** The financial-ratio learning page: liquidity, leverage and profitability
    ratios as plain quotients of the entered figures, and the three-tier
    traffic light for the liquidity ratios. The page divides without guards,
    so every denominator must be non-zero. */
module FinancialRatios {
  import ProfitLoss

  /** The twelve number inputs of the page. */
  datatype RatioInputs = RatioInputs(
    currentAssets: real, inventory: real, totalAssets: real,
    currentLiabilities: real, totalLiabilities: real, equity: real,
    revenue: real, cogs: real, operatingExpenses: real,
    interestExpense: real, taxExpense: real, netIncome: real)

  const Defaults: RatioInputs := RatioInputs(
    1000000.0, 200000.0, 2000000.0,
    500000.0, 1200000.0, 800000.0,
    1500000.0, 800000.0, 300000.0,
    50000.0, 100000.0, 250000.0)

  // ---------------------------------------------------------------------
  // Liquidity
  // ---------------------------------------------------------------------

  function CurrentRatio(currentAssets: real, currentLiabilities: real): (r: real)
    requires currentLiabilities != 0.0
    ensures r * currentLiabilities == currentAssets
  {
    currentAssets / currentLiabilities
  }

  /** Current assets less inventory, over current liabilities. */
  function QuickRatio(currentAssets: real, inventory: real, currentLiabilities: real): (r: real)
    requires currentLiabilities != 0.0
    ensures r * currentLiabilities == currentAssets - inventory
  {
    (currentAssets - inventory) / currentLiabilities
  }

  /** Taking inventory out never raises the ratio: with inventory >= 0 and
      positive current liabilities the quick ratio is at most the current
      ratio, and equal to it exactly when there is no inventory. */
  lemma QuickAtMostCurrent(currentAssets: real, inventory: real, currentLiabilities: real)
    requires inventory >= 0.0 && currentLiabilities > 0.0
    ensures QuickRatio(currentAssets, inventory, currentLiabilities) <= CurrentRatio(currentAssets, currentLiabilities)
    ensures QuickRatio(currentAssets, inventory, currentLiabilities) == CurrentRatio(currentAssets, currentLiabilities)
        <==> inventory == 0.0
  {
    var q, c := QuickRatio(currentAssets, inventory, currentLiabilities), CurrentRatio(currentAssets, currentLiabilities);
    assert (c - q) * currentLiabilities == inventory;
    NonNegativeFactor(c - q, currentLiabilities);
  }

  /** A product with a positive factor has the sign of the other factor. */
  lemma NonNegativeFactor(x: real, y: real)
    requires y > 0.0
    ensures x * y >= 0.0 <==> x >= 0.0
  {
    if x >= 0.0 {
      assert x * y >= 0.0 * y;
    } else {
      assert (-x) * y > 0.0;
    }
  }

  /** The traffic light shown beside a liquidity ratio. */
  datatype Light = Green | Yellow | Red

  /** `color_ratio`'s default threshold. */
  const DefaultOptimal: real := 1.5

  /** `color_ratio(val, optimal)`: green from the optimal value up, yellow
      from 1 up, red below. When `optimal` is below 1 the yellow band is
      empty and red means below `optimal`. */
  function ColorRatio(val: real, optimal: real): (c: Light)
    ensures c == Green <==> val >= optimal
    ensures c == Yellow <==> 1.0 <= val < optimal
    ensures c == Red <==> val < 1.0 && val < optimal
  {
    if val >= optimal then Green
    else if val >= 1.0 then Yellow
    else Red
  }

  /** With an optimal value of at least 1, as on the page, red means exactly
      "below 1". */
  lemma RedMeansBelowOne(val: real, optimal: real)
    requires optimal >= 1.0
    ensures ColorRatio(val, optimal) == Red <==> val < 1.0
  {
  }

  /** The quick ratio is classified with `optimal = 1`, so it is never
      yellow: it is green from 1 up and red below. */
  lemma QuickRatioNeverYellow(val: real)
    ensures ColorRatio(val, 1.0) != Yellow
    ensures ColorRatio(val, 1.0) == Green <==> val >= 1.0
  {
  }

  /** The colour of a bar in the liquidity chart. */
  datatype BarColour = GreenBar | RedBar

  /** The chart's marker colours: green for a current ratio from 1.5 up and
      a quick ratio from 1 up, red otherwise. The bars agree with the lights:
      a bar is green exactly when its light is. */
  function LiquidityBarColours(currentRatio: real, quickRatio: real): (cs: seq<BarColour>)
    ensures |cs| == 2
    ensures cs[0] == GreenBar <==> ColorRatio(currentRatio, DefaultOptimal) == Green
    ensures cs[1] == GreenBar <==> ColorRatio(quickRatio, 1.0) == Green
  {
    [if currentRatio >= 1.5 then GreenBar else RedBar,
     if quickRatio >= 1.0 then GreenBar else RedBar]
  }

  // ---------------------------------------------------------------------
  // Leverage
  // ---------------------------------------------------------------------

  function DebtToEquity(totalLiabilities: real, equity: real): (r: real)
    requires equity != 0.0
    ensures r * equity == totalLiabilities
  {
    totalLiabilities / equity
  }

  function DebtToAssets(totalLiabilities: real, totalAssets: real): (r: real)
    requires totalAssets != 0.0
    ensures r * totalAssets == totalLiabilities
  {
    totalLiabilities / totalAssets
  }

  // ---------------------------------------------------------------------
  // Profitability
  // ---------------------------------------------------------------------

  /** The five profitability ratios, as fractions (not percentages). */
  datatype Profitability = Profitability(
    grossMargin: real, operatingMargin: real, netMargin: real, roa: real, roe: real)

  /** The profitability tab. Interest and tax expense are not among its
      arguments: no ratio reads them. */
  function ProfitabilityRatios(revenue: real, cogs: real, operatingExpenses: real,
                               netIncome: real, totalAssets: real, equity: real): (p: Profitability)
    requires revenue != 0.0 && totalAssets != 0.0 && equity != 0.0
    ensures p.grossMargin * revenue == revenue - cogs
    ensures p.operatingMargin * revenue == revenue - cogs - operatingExpenses
    ensures p.netMargin * revenue == netIncome
    ensures p.roa * totalAssets == netIncome
    ensures p.roe * equity == netIncome
  {
    Profitability(
      (revenue - cogs) / revenue,
      (revenue - cogs - operatingExpenses) / revenue,
      netIncome / revenue,
      netIncome / totalAssets,
      netIncome / equity)
  }

  /** With positive revenue and non-negative operating expenses the
      operating margin is at most the gross margin. */
  lemma OperatingMarginAtMostGross(revenue: real, cogs: real, operatingExpenses: real,
                                   netIncome: real, totalAssets: real, equity: real)
    requires revenue > 0.0 && operatingExpenses >= 0.0 && totalAssets != 0.0 && equity != 0.0
    ensures var p := ProfitabilityRatios(revenue, cogs, operatingExpenses, netIncome, totalAssets, equity);
      p.operatingMargin <= p.grossMargin
  {
    var p := ProfitabilityRatios(revenue, cogs, operatingExpenses, netIncome, totalAssets, equity);
    assert (p.grossMargin - p.operatingMargin) * revenue == operatingExpenses;
    NonNegativeFactor(p.grossMargin - p.operatingMargin, revenue);
  }

  /** When the entered net income is the one the P&L chain derives, this
      page's margins are the P&L page's margins divided by 100. */
  lemma MarginsAgreeWithStatement(revenue: real, cogs: real, operatingExpenses: real,
                                  interest: real, tax: real, totalAssets: real, equity: real)
    requires revenue > 0.0 && totalAssets != 0.0 && equity != 0.0
    ensures var s := ProfitLoss.CalculateMargins(revenue, cogs, operatingExpenses, interest, tax);
      var p := ProfitabilityRatios(revenue, cogs, operatingExpenses, s.netIncome, totalAssets, equity);
      && p.grossMargin * 100.0 == s.grossMargin
      && p.operatingMargin * 100.0 == s.operatingMargin
      && p.netMargin * 100.0 == s.netMargin
  {
    var s := ProfitLoss.CalculateMargins(revenue, cogs, operatingExpenses, interest, tax);
    var p := ProfitabilityRatios(revenue, cogs, operatingExpenses, s.netIncome, totalAssets, equity);
    assert (p.grossMargin * 100.0 - s.grossMargin) * revenue == 0.0;
    assert (p.operatingMargin * 100.0 - s.operatingMargin) * revenue == 0.0;
    assert (p.netMargin * 100.0 - s.netMargin) * revenue == 0.0;
  }

  // ---------------------------------------------------------------------
  // The whole page
  // ---------------------------------------------------------------------

  /** Every ratio the page computes, tab by tab. */
  datatype Ratios = Ratios(
    currentRatio: real, quickRatio: real,
    debtToEquity: real, debtToAssets: real,
    profitability: Profitability)

  /** All three tabs run on every rerun, so any zero denominator stops the
      page. */
  function PageRatios(i: RatioInputs): (r: Ratios)
    requires i.currentLiabilities != 0.0 && i.equity != 0.0 && i.totalAssets != 0.0 && i.revenue != 0.0
    ensures r.currentRatio * i.currentLiabilities == i.currentAssets
    ensures r.quickRatio * i.currentLiabilities == i.currentAssets - i.inventory
    ensures r.debtToEquity * i.equity == i.totalLiabilities
    ensures r.debtToAssets * i.totalAssets == i.totalLiabilities
    ensures r.profitability == ProfitabilityRatios(i.revenue, i.cogs, i.operatingExpenses, i.netIncome, i.totalAssets, i.equity)
    ensures r.profitability.grossMargin * i.revenue == i.revenue - i.cogs
    ensures r.profitability.operatingMargin * i.revenue == i.revenue - i.cogs - i.operatingExpenses
    ensures r.profitability.netMargin * i.revenue == i.netIncome
    ensures r.profitability.roa * i.totalAssets == i.netIncome
    ensures r.profitability.roe * i.equity == i.netIncome
  {
    Ratios(
      CurrentRatio(i.currentAssets, i.currentLiabilities),
      QuickRatio(i.currentAssets, i.inventory, i.currentLiabilities),
      DebtToEquity(i.totalLiabilities, i.equity),
      DebtToAssets(i.totalLiabilities, i.totalAssets),
      ProfitabilityRatios(i.revenue, i.cogs, i.operatingExpenses, i.netIncome, i.totalAssets, i.equity))
  }

  /** Interest and tax expense feed no ratio: changing them changes nothing. */
  lemma InterestAndTaxFeedNoRatio(i: RatioInputs, interest: real, tax: real)
    requires i.currentLiabilities != 0.0 && i.equity != 0.0 && i.totalAssets != 0.0 && i.revenue != 0.0
    ensures PageRatios(i) == PageRatios(i.(interestExpense := interest, taxExpense := tax))
  {
  }

  /** The page's defaults: current 2.0 and quick 1.6 (both green), D/E 1.5,
      D/A 0.6, ROA 0.125 and ROE 0.3125; the default net income of 250,000
      is the one the P&L chain derives from the default revenue and costs. */
  lemma DefaultRatios()
    ensures var r := PageRatios(Defaults);
      && r.currentRatio == 2.0 && r.quickRatio == 1.6
      && r.debtToEquity == 1.5 && r.debtToAssets == 0.6
      && r.profitability.roa == 0.125 && r.profitability.roe == 0.3125
      && ColorRatio(r.currentRatio, DefaultOptimal) == Green
      && ColorRatio(r.quickRatio, 1.0) == Green
    ensures Defaults.netIncome
         == ProfitLoss.CalculateMargins(Defaults.revenue, Defaults.cogs, Defaults.operatingExpenses,
                                        Defaults.interestExpense, Defaults.taxExpense).netIncome
  {
    var r := PageRatios(Defaults);
    assert r.currentRatio * 500000.0 == 1000000.0;
    assert r.quickRatio * 500000.0 == 800000.0;
    assert r.debtToEquity * 800000.0 == 1200000.0;
    assert r.debtToAssets * 2000000.0 == 1200000.0;
    assert r.profitability.roa * 2000000.0 == 250000.0;
    assert r.profitability.roe * 800000.0 == 250000.0;
  }
}
