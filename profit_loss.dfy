/** Profit-and-loss derivation of the P&L learning page: the chain from
    revenue to net income, the three margins, Learn mode's line-item totals,
    its "% of Revenue" column and waterfall, and the 20 % tax rule that the
    challenges and the real-world scenarios charge on positive earnings.
    Currency amounts are exact reals. */
module ProfitLoss {

  // ---------------------------------------------------------------------
  // calculate_margins
  // ---------------------------------------------------------------------

  /** The seven values `calculate_margins` returns, in the same order. */
  datatype Statement = Statement(
    grossProfit: real,
    operatingProfit: real,
    ebt: real,
    netIncome: real,
    grossMargin: real,
    operatingMargin: real,
    netMargin: real)

  /** A profit level as a percentage of revenue. The guard is `revenue > 0`,
      so zero and negative revenue both give a margin of 0. */
  function Margin(profit: real, revenue: real): (m: real)
    ensures revenue <= 0.0 ==> m == 0.0
    ensures revenue > 0.0 ==> m * revenue == profit * 100.0
  {
    if revenue > 0.0 then profit / revenue * 100.0 else 0.0
  }

  /** With positive revenue a margin has the sign of its profit level: a
      loss shows as a negative margin. */
  lemma MarginHasSignOfProfit(profit: real, revenue: real)
    requires revenue > 0.0
    ensures Margin(profit, revenue) > 0.0 <==> profit > 0.0
    ensures Margin(profit, revenue) < 0.0 <==> profit < 0.0
  {
    var m := Margin(profit, revenue);
    if m > 0.0 { assert m * revenue > 0.0; }
    if m < 0.0 { assert m * revenue < 0.0; }
    if profit > 0.0 { assert m * revenue > 0.0; }
    if profit < 0.0 { assert m * revenue < 0.0; }
  }

  /** Margins preserve the order of the profit levels they are taken of. */
  lemma MarginMonotone(p: real, q: real, revenue: real)
    requires p <= q
    ensures Margin(p, revenue) <= Margin(q, revenue)
  {
    if revenue > 0.0 {
      var mp, mq := Margin(p, revenue), Margin(q, revenue);
      assert (mq - mp) * revenue == (q - p) * 100.0;
    }
  }

  /** `calculate_margins`: each profit level subtracts one more cost from
      revenue, and each margin is that level as a percentage of revenue.
      The page defines it but never calls it; Learn mode repeats the chain
      inline, and `LearnStatement` relates the two. */
  function CalculateMargins(revenue: real, cogs: real, opex: real, interest: real, tax: real): (s: Statement)
    ensures s.grossProfit == revenue - cogs
    ensures s.operatingProfit == revenue - cogs - opex
    ensures s.ebt == revenue - cogs - opex - interest
    ensures s.netIncome == revenue - cogs - opex - interest - tax
    ensures revenue <= 0.0 ==> s.grossMargin == 0.0 && s.operatingMargin == 0.0 && s.netMargin == 0.0
    ensures revenue > 0.0 ==>
      && s.grossMargin * revenue == s.grossProfit * 100.0
      && s.operatingMargin * revenue == s.operatingProfit * 100.0
      && s.netMargin * revenue == s.netIncome * 100.0
  {
    var grossProfit := revenue - cogs;
    var operatingProfit := grossProfit - opex;
    var ebt := operatingProfit - interest;
    var netIncome := ebt - tax;
    Statement(grossProfit, operatingProfit, ebt, netIncome,
              Margin(grossProfit, revenue), Margin(operatingProfit, revenue), Margin(netIncome, revenue))
  }

  /** With non-negative costs below the gross line, the margins fall (or stay)
      from gross to operating to net. */
  lemma MarginsDescend(revenue: real, cogs: real, opex: real, interest: real, tax: real)
    requires opex >= 0.0 && interest >= 0.0 && tax >= 0.0
    ensures var s := CalculateMargins(revenue, cogs, opex, interest, tax);
      s.netMargin <= s.operatingMargin <= s.grossMargin
  {
    var s := CalculateMargins(revenue, cogs, opex, interest, tax);
    MarginMonotone(s.operatingProfit, s.grossProfit, revenue);
    MarginMonotone(s.netIncome, s.operatingProfit, revenue);
  }

  // ---------------------------------------------------------------------
  // Learn mode
  // ---------------------------------------------------------------------

  /** The thirteen number inputs of Learn mode. */
  datatype LearnInputs = LearnInputs(
    productSales: real, serviceRevenue: real, otherIncome: real,
    rawMaterials: real, directLabor: real, packaging: real,
    marketing: real, salesSalaries: real, rent: real, adminSalaries: real, otherOpex: real,
    interestExpense: real, taxExpense: real)

  function TotalRevenue(i: LearnInputs): real
  {
    i.productSales + i.serviceRevenue + i.otherIncome
  }

  function TotalCogs(i: LearnInputs): real
  {
    i.rawMaterials + i.directLabor + i.packaging
  }

  function TotalOpex(i: LearnInputs): real
  {
    i.marketing + i.salesSalaries + i.rent + i.adminSalaries + i.otherOpex
  }

  /** Learn mode's own inline chain, step by step as the page computes it;
      it agrees with `calculate_margins` applied to the three totals. */
  function LearnStatement(i: LearnInputs): (s: Statement)
    ensures s == CalculateMargins(TotalRevenue(i), TotalCogs(i), TotalOpex(i), i.interestExpense, i.taxExpense)
  {
    var totalRevenue := TotalRevenue(i);
    var grossProfit := totalRevenue - TotalCogs(i);
    var grossMargin := if totalRevenue > 0.0 then grossProfit / totalRevenue * 100.0 else 0.0;
    var operatingProfit := grossProfit - TotalOpex(i);
    var operatingMargin := if totalRevenue > 0.0 then operatingProfit / totalRevenue * 100.0 else 0.0;
    var ebt := operatingProfit - i.interestExpense;
    var netIncome := ebt - i.taxExpense;
    var netMargin := if totalRevenue > 0.0 then netIncome / totalRevenue * 100.0 else 0.0;
    Statement(grossProfit, operatingProfit, ebt, netIncome, grossMargin, operatingMargin, netMargin)
  }

  /** One cell of the statement's "% of Revenue" column. Unlike the margins
      it divides without a guard, so the page fails on zero revenue. */
  function PercentOfRevenue(amount: real, totalRevenue: real): (p: real)
    requires totalRevenue != 0.0
    ensures p * totalRevenue == amount * 100.0
  {
    amount / totalRevenue * 100.0
  }

  /** With positive revenue the "% of Revenue" column is consistent with the
      margins: the cost rows and the net margin add up to 100 %, each
      profit row's unguarded percentage equals its guarded margin, and the
      EBT row, the one profit row printed as an unguarded quotient, equals
      the guarded margin of EBT. */
  lemma PercentColumnAddsUp(i: LearnInputs)
    requires TotalRevenue(i) > 0.0
    ensures var s, r := LearnStatement(i), TotalRevenue(i);
      && PercentOfRevenue(s.grossProfit, r) == s.grossMargin
      && PercentOfRevenue(s.operatingProfit, r) == s.operatingMargin
      && PercentOfRevenue(s.netIncome, r) == s.netMargin
      && PercentOfRevenue(s.ebt, r) == Margin(s.ebt, r)
      && PercentOfRevenue(TotalCogs(i), r) + PercentOfRevenue(TotalOpex(i), r)
         + PercentOfRevenue(i.interestExpense, r) + PercentOfRevenue(i.taxExpense, r) + s.netMargin == 100.0
  {
    var s, r := LearnStatement(i), TotalRevenue(i);
    var pc, po := PercentOfRevenue(TotalCogs(i), r), PercentOfRevenue(TotalOpex(i), r);
    var pi, pt := PercentOfRevenue(i.interestExpense, r), PercentOfRevenue(i.taxExpense, r);
    assert (pc + po + pi + pt + s.netMargin) * r == (TotalCogs(i) + TotalOpex(i) + i.interestExpense + i.taxExpense + s.netIncome) * 100.0;
    assert s.netIncome == r - TotalCogs(i) - TotalOpex(i) - i.interestExpense - i.taxExpense;
    assert (pc + po + pi + pt + s.netMargin - 100.0) * r == 0.0;
  }

  /** The kind of a waterfall bar: a relative bar moves the running level,
      a total bar shows the level reached so far. */
  datatype Measure = Relative | Total

  const WaterfallMeasures: seq<Measure> := [Relative, Relative, Total, Relative, Total, Relative, Relative, Total]

  /** The y values of Learn mode's waterfall: Revenue, COGS, Gross Profit,
      OpEx, Operating Profit, Interest, Tax, Net Income. */
  function WaterfallValues(i: LearnInputs): (ys: seq<real>)
    ensures |ys| == |WaterfallMeasures|
  {
    [TotalRevenue(i), -TotalCogs(i), 0.0, -TotalOpex(i), 0.0, -i.interestExpense, -i.taxExpense, 0.0]
  }

  /** Running level of a waterfall after its first `k` bars. */
  function Level(ys: seq<real>, ms: seq<Measure>, k: nat): real
    requires |ys| == |ms| && k <= |ys|
  {
    if k == 0 then 0.0
    else Level(ys, ms, k - 1) + (if ms[k - 1] == Relative then ys[k - 1] else 0.0)
  }

  /** The waterfall's relative bars add up, at each total bar, to the profit
      level that bar is labelled with, ending at net income. */
  lemma WaterfallReachesNetIncome(i: LearnInputs)
    ensures var ys, s := WaterfallValues(i), LearnStatement(i);
      && Level(ys, WaterfallMeasures, 3) == s.grossProfit
      && Level(ys, WaterfallMeasures, 5) == s.operatingProfit
      && Level(ys, WaterfallMeasures, 8) == s.netIncome
  {
    var ys, ms := WaterfallValues(i), WaterfallMeasures;
    assert Level(ys, ms, 1) == TotalRevenue(i);
    assert Level(ys, ms, 3) == TotalRevenue(i) - TotalCogs(i);
    assert Level(ys, ms, 5) == TotalRevenue(i) - TotalCogs(i) - TotalOpex(i);
    assert Level(ys, ms, 7) == TotalRevenue(i) - TotalCogs(i) - TotalOpex(i) - i.interestExpense - i.taxExpense;
  }

  // ---------------------------------------------------------------------
  // The profit-conditioned 20 % tax rule
  // ---------------------------------------------------------------------

  const TaxRate: real := 0.2

  /** Tax as the coffee-shop challenge writes it: 20 % of earnings before
      tax when they are positive, nothing otherwise. */
  function ProfitTax(ebt: real): (tax: real)
    ensures tax >= 0.0
    ensures ebt > 0.0 ==> tax == ebt * TaxRate && tax < ebt
    ensures ebt <= 0.0 ==> tax == 0.0
  {
    if ebt > 0.0 then ebt * TaxRate else 0.0
  }

  /** Tax as the pizzeria journey writes it: `max(0, ebt * 0.2)`. */
  function MaxTax(ebt: real): (tax: real)
    ensures tax >= 0.0 && tax >= ebt * TaxRate
    ensures tax == 0.0 || tax == ebt * TaxRate
  {
    if 0.0 >= ebt * TaxRate then 0.0 else ebt * TaxRate
  }

  /** The two ways the page writes the tax rule agree on every input. */
  lemma TaxFormsAgree(ebt: real)
    ensures ProfitTax(ebt) == MaxTax(ebt)
  {
  }

  /** Net income after the tax rule. */
  function AfterTax(ebt: real): (net: real)
    ensures net > 0.0 <==> ebt > 0.0
    ensures net <= ebt
    ensures ebt > 0.0 ==> net == 0.8 * ebt
    ensures ebt <= 0.0 ==> net == ebt
  {
    ebt - ProfitTax(ebt)
  }

  /** A better result before tax is never a worse one after tax. */
  lemma AfterTaxMonotone(a: real, b: real)
    requires a <= b
    ensures AfterTax(a) <= AfterTax(b)
  {
  }

  /** What a challenge or scenario derives from its revenue and costs: the
      profit levels, the tax charged and net income. */
  datatype Outcome = Outcome(grossProfit: real, operatingProfit: real, ebt: real, tax: real, netIncome: real)

  /** The chain from revenue to net income with the tax rule applied. */
  function Settle(revenue: real, cogs: real, opex: real, interest: real): (o: Outcome)
    ensures o.grossProfit == revenue - cogs
    ensures o.operatingProfit == revenue - cogs - opex
    ensures o.ebt == revenue - cogs - opex - interest
    ensures o.tax == ProfitTax(o.ebt) && o.netIncome == AfterTax(o.ebt)
    ensures o.tax >= 0.0 && o.netIncome + o.tax == o.ebt
    ensures o.netIncome > 0.0 <==> o.ebt > 0.0
  {
    var ebt := revenue - cogs - opex - interest;
    Outcome(revenue - cogs, revenue - cogs - opex, ebt, ProfitTax(ebt), AfterTax(ebt))
  }
}
