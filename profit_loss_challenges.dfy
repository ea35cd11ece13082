/** Challenge mode of the P&L learning page: the pizzeria rescue, whose four
    strategies are settled with the 20 % tax rule, and the coffee-shop price
    war, whose projection is judged against last month's profit. */
module ProfitLossChallenges {
  import opened ProfitLoss

  // ---------------------------------------------------------------------
  // Challenge 1: save the struggling pizzeria
  // ---------------------------------------------------------------------

  /** The four strategies offered by the radio button. */
  datatype Strategy = RaisePrice | ReduceCogs | CutOpex | IncreaseSales

  /** Revenue, COGS and operating expenses a strategy leads to. */
  datatype Plan = Plan(revenue: real, cogs: real, opex: real)

  const PizzeriaInterest: real := 3000.0

  /** Last month's figures, before any strategy: 4,000 pizzas at $20. */
  const PizzeriaBaseline: Plan := Plan(80000.0, 50000.0, 45000.0)

  function StrategyPlan(s: Strategy): Plan
  {
    match s
    case RaisePrice => Plan(4000.0 * 25.0, 50000.0, 45000.0)
    case ReduceCogs => Plan(80000.0, 40000.0, 45000.0)
    case CutOpex => Plan(80000.0, 50000.0, 35000.0)
    case IncreaseSales => Plan(5000.0 * 20.0, 50000.0 + 12500.0, 45000.0)
  }

  /** "Execute Strategy!": picks the strategy's figures, then computes the
      chain, first setting net income to EBT and replacing it with EBT less
      20 % tax only when it is positive. The outcome is the tax rule's. */
  method ExecuteStrategy(decision: Strategy) returns (o: Outcome)
    ensures var p := StrategyPlan(decision);
      o == Settle(p.revenue, p.cogs, p.opex, PizzeriaInterest)
  {
    var plan := StrategyPlan(decision);
    var revenue, cogs, opex := plan.revenue, plan.cogs, plan.opex;
    var interest := PizzeriaInterest;
    var grossProfit := revenue - cogs;
    var operatingProfit := grossProfit - opex;
    var ebt := operatingProfit - interest;
    var netIncome := ebt;
    var tax;
    if netIncome > 0.0 {
      tax := netIncome * 0.2;
      netIncome := ebt - tax;
    } else {
      tax := 0.0;
    }
    o := Outcome(grossProfit, operatingProfit, ebt, tax, netIncome);
  }

  /** The baseline settles to the "Before" column of the comparison table:
      gross profit 30,000, operating loss 15,000, no tax, net loss 18,000. */
  lemma BaselineMatchesBeforeColumn()
    ensures Settle(PizzeriaBaseline.revenue, PizzeriaBaseline.cogs, PizzeriaBaseline.opex, PizzeriaInterest)
         == Outcome(30000.0, -15000.0, -18000.0, 0.0, -18000.0)
  {
  }

  /** Of the four strategies only raising the price turns a profit, and it
      nets 1,600 after 400 of tax; the other three still lose money. */
  lemma OnlyRaisingPriceTurnsAProfit(s: Strategy)
    ensures var p := StrategyPlan(s);
      Settle(p.revenue, p.cogs, p.opex, PizzeriaInterest).netIncome > 0.0 <==> s == RaisePrice
    ensures var p := StrategyPlan(RaisePrice);
      Settle(p.revenue, p.cogs, p.opex, PizzeriaInterest) == Outcome(50000.0, 5000.0, 2000.0, 400.0, 1600.0)
  {
  }

  // ---------------------------------------------------------------------
  // Challenge 2: coffee-shop price war
  // ---------------------------------------------------------------------

  const CoffeeUnitCost: real := 1.5
  const CoffeeBaseOpex: real := 20000.0
  const CoffeeInterest: real := 1000.0
  /** Net profit before the competitor opened, the bar the verdict uses. */
  const PreviousProfit: real := 11000.0

  /** The projected month of the coffee shop. */
  datatype Projection = Projection(
    revenue: real, cogs: real, opex: real, interest: real,
    ebt: real, tax: real, netIncome: real, netMargin: real)

  /** The projection from the three sliders: sales volume, price and extra
      marketing spend. */
  function CoffeeProjection(salesVolume: real, price: real, marketingSpend: real): (p: Projection)
    ensures p.revenue == salesVolume * price && p.cogs == salesVolume * CoffeeUnitCost
    ensures p.opex == CoffeeBaseOpex + marketingSpend && p.interest == CoffeeInterest
    ensures p.ebt == salesVolume * (price - CoffeeUnitCost) - CoffeeBaseOpex - marketingSpend - CoffeeInterest
    ensures p.tax == ProfitTax(p.ebt) && p.netIncome == AfterTax(p.ebt)
    ensures p.revenue - (p.cogs + p.opex + p.interest + p.tax) == p.netIncome
    ensures p.netMargin == Margin(p.netIncome, p.revenue)
  {
    var revenue := salesVolume * price;
    var cogs := salesVolume * 1.5;
    var opex := 20000.0 + marketingSpend;
    var interest := 1000.0;
    var grossProfit := revenue - cogs;
    var operatingProfit := grossProfit - opex;
    var ebt := operatingProfit - interest;
    var tax := if ebt > 0.0 then ebt * 0.2 else 0.0;
    var netIncome := if ebt > 0.0 then ebt - tax else ebt;
    var netMargin := if revenue > 0.0 then netIncome / revenue * 100.0 else 0.0;
    Projection(revenue, cogs, opex, interest, ebt, tax, netIncome, netMargin)
  }

  /** The three boxes the projection can end in. */
  datatype Verdict = Winning | Surviving | Losing

  /** Winning above last month's profit, surviving on any smaller profit,
      losing otherwise. */
  function CoffeeVerdict(netIncome: real): (v: Verdict)
    ensures v == Winning <==> netIncome > PreviousProfit
    ensures v == Surviving <==> 0.0 < netIncome <= PreviousProfit
    ensures v == Losing <==> netIncome <= 0.0
  {
    if netIncome > 11000.0 then Winning
    else if netIncome > 0.0 then Surviving
    else Losing
  }

  /** The verdict read off earnings before tax: beating 11,000 after tax
      needs EBT above 13,750. */
  lemma VerdictByEbt(ebt: real)
    ensures CoffeeVerdict(AfterTax(ebt)) == Winning <==> ebt > 13750.0
    ensures CoffeeVerdict(AfterTax(ebt)) == Surviving <==> 0.0 < ebt <= 13750.0
    ensures CoffeeVerdict(AfterTax(ebt)) == Losing <==> ebt <= 0.0
  {
  }

  /** At fixed volume and marketing, a higher price never gives less net
      income, and so never a worse verdict. */
  lemma HigherPriceNeverHurts(salesVolume: real, price: real, price': real, marketingSpend: real)
    requires salesVolume >= 0.0 && price <= price'
    ensures CoffeeProjection(salesVolume, price, marketingSpend).netIncome
         <= CoffeeProjection(salesVolume, price', marketingSpend).netIncome
  {
    PriceNeverLowersEbt(salesVolume, price, price', marketingSpend);
    AfterTaxMonotone(CoffeeProjection(salesVolume, price, marketingSpend).ebt,
                     CoffeeProjection(salesVolume, price', marketingSpend).ebt);
  }

  /** At fixed volume and marketing, a higher price never lowers EBT. */
  lemma PriceNeverLowersEbt(salesVolume: real, price: real, price': real, marketingSpend: real)
    requires salesVolume >= 0.0 && price <= price'
    ensures CoffeeProjection(salesVolume, price, marketingSpend).ebt
         <= CoffeeProjection(salesVolume, price', marketingSpend).ebt
  {
    MarginPerCupMonotone(salesVolume, price - CoffeeUnitCost, price' - CoffeeUnitCost);
  }

  lemma MarginPerCupMonotone(volume: real, a: real, b: real)
    requires volume >= 0.0 && a <= b
    ensures volume * a <= volume * b
  {
    assert volume * b - volume * a == volume * (b - a);
  }

  /** The sliders' starting position (7,000 coffees at $5, no extra
      marketing) survives with 2,800; the month before the competitor
      (10,000 coffees) takes in 50,000 and nets 11,200, the "~$11,000" of
      the story, a net margin of 22.4 %. */
  lemma CoffeeStartingPoints()
    ensures CoffeeProjection(7000.0, 5.0, 0.0).netIncome == 2800.0
    ensures CoffeeVerdict(CoffeeProjection(7000.0, 5.0, 0.0).netIncome) == Surviving
    ensures CoffeeProjection(10000.0, 5.0, 0.0).revenue == 50000.0
    ensures CoffeeProjection(10000.0, 5.0, 0.0).netIncome == 11200.0
    ensures CoffeeProjection(10000.0, 5.0, 0.0).netMargin == 22.4
  {
    var p := CoffeeProjection(10000.0, 5.0, 0.0);
    assert p.netMargin * 50000.0 == 11200.0 * 100.0;
  }
}
