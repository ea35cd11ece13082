/** Real-world scenarios of the P&L learning page: Tony's Pizzeria month by
    month, with its year-to-date fold and profit trend, and the SocialBuzz
    app quarter by quarter. Each scenario is a fixed table looked up by the
    slider's index; nothing is carried from one selection to the next. */
module ProfitLossScenarios {
  import opened ProfitLoss

  datatype Option<T> = None | Some(value: T)

  // ---------------------------------------------------------------------
  // Pizza restaurant: the first year
  // ---------------------------------------------------------------------

  /** One row of `monthly_data` (the story string is left out). */
  datatype MonthFigures = MonthFigures(revenue: real, cogs: real, opex: real)

  const MonthlyData: seq<MonthFigures> := [
    MonthFigures(15000.0, 9000.0, 18000.0),
    MonthFigures(22000.0, 13000.0, 15000.0),
    MonthFigures(30000.0, 17000.0, 14000.0),
    MonthFigures(35000.0, 19000.0, 13000.0),
    MonthFigures(40000.0, 22000.0, 13000.0),
    MonthFigures(45000.0, 24000.0, 14000.0),
    MonthFigures(42000.0, 23000.0, 13500.0),
    MonthFigures(38000.0, 21000.0, 13000.0),
    MonthFigures(48000.0, 26000.0, 14000.0),
    MonthFigures(44000.0, 24000.0, 13500.0),
    MonthFigures(52000.0, 28000.0, 15000.0),
    MonthFigures(55000.0, 30000.0, 16000.0)
  ]

  /** The constant monthly loan payment. */
  const MonthlyInterest: real := 2000.0

  /** `monthly_data[month]`; the slider offers months 1 to 12. */
  function Month(m: int): MonthFigures
    requires 1 <= m <= 12
  {
    MonthlyData[m - 1]
  }

  /** The month's own P&L, with tax written as `max(0, ebt * 0.2)`. */
  function MonthOutcome(m: int): (o: Outcome)
    requires 1 <= m <= 12
    ensures o == Settle(Month(m).revenue, Month(m).cogs, Month(m).opex, MonthlyInterest)
  {
    var d := Month(m);
    var grossProfit := d.revenue - d.cogs;
    var operatingProfit := grossProfit - d.opex;
    var ebt := operatingProfit - MonthlyInterest;
    var tax := MaxTax(ebt);
    TaxFormsAgree(ebt);
    Outcome(grossProfit, operatingProfit, ebt, tax, ebt - tax)
  }

  /** The month's EBT as the trend loop writes it, in one line. */
  function MonthEbt(m: int): real
    requires 1 <= m <= 12
  {
    Month(m).revenue - Month(m).cogs - Month(m).opex - MonthlyInterest
  }

  /** Month 4 is the first month with a profit, as its story says, and every
      later month is profitable too. */
  lemma FirstProfitableMonthIsFour(m: int)
    requires 1 <= m <= 12
    ensures MonthOutcome(m).netIncome > 0.0 <==> m >= 4
  {
    var d := Month(m);
    assert d == MonthlyData[m - 1];
    if m <= 3 {
      assert d.revenue - d.cogs - d.opex - MonthlyInterest < 0.0 by {
        assert m == 1 || m == 2 || m == 3;
      }
    } else {
      assert d.revenue - d.cogs - d.opex - MonthlyInterest > 0.0 by {
        assert 4 <= m <= 12;
      }
    }
  }

  /** Componentwise sum of the first `month` rows: the three list-comprehension
      sums of the year-to-date panel. */
  function Cumulative(month: int): MonthFigures
    requires 0 <= month <= 12
  {
    if month == 0 then MonthFigures(0.0, 0.0, 0.0)
    else
      var c, d := Cumulative(month - 1), Month(month);
      MonthFigures(c.revenue + d.revenue, c.cogs + d.cogs, c.opex + d.opex)
  }

  /** The year-to-date panel for months 1..month. */
  datatype YearToDate = YearToDate(
    revenue: real, cogs: real, opex: real, interest: real,
    ebt: real, tax: real, profit: real)

  function YearToDateAt(month: int): (y: YearToDate)
    requires 1 <= month <= 12
    ensures var c := Cumulative(month);
      y.revenue == c.revenue && y.cogs == c.cogs && y.opex == c.opex
    ensures y.interest == MonthlyInterest * month as real
    ensures y.ebt == SumMonthlyEbt(month)
    ensures y.tax == ProfitTax(y.ebt) && y.profit == AfterTax(y.ebt)
    ensures y.revenue - (y.cogs + y.opex + y.interest + y.tax) == y.profit
  {
    var c := Cumulative(month);
    var interest := MonthlyInterest * month as real;
    var ebt := c.revenue - c.cogs - c.opex - interest;
    var tax := MaxTax(ebt);
    TaxFormsAgree(ebt);
    CumulativeEbtUpTo(month);
    YearToDate(c.revenue, c.cogs, c.opex, interest, ebt, tax, ebt - tax)
  }

  /** Sum of the trend loop's monthly EBTs over months 1..month. */
  function SumMonthlyEbt(month: int): real
    requires 0 <= month <= 12
  {
    if month == 0 then 0.0 else SumMonthlyEbt(month - 1) + MonthEbt(month)
  }

  /** Sum of the monthly taxes over months 1..month. */
  function SumMonthlyTax(month: int): real
    requires 0 <= month <= 12
  {
    if month == 0 then 0.0 else SumMonthlyTax(month - 1) + ProfitTax(MonthEbt(month))
  }

  /** Sum of the monthly net profits the trend chart plots. */
  function SumMonthlyProfit(month: int): real
    requires 0 <= month <= 12
  {
    if month == 0 then 0.0 else SumMonthlyProfit(month - 1) + AfterTax(MonthEbt(month))
  }

  lemma {:induction false} CumulativeEbtUpTo(month: int)
    requires 0 <= month <= 12
    ensures var c := Cumulative(month);
      c.revenue - c.cogs - c.opex - MonthlyInterest * month as real == SumMonthlyEbt(month)
  {
    if month > 0 {
      CumulativeEbtUpTo(month - 1);
    }
  }

  lemma {:induction false} TaxOnSumsUpTo(month: int)
    requires 0 <= month <= 12
    ensures ProfitTax(SumMonthlyEbt(month)) <= SumMonthlyTax(month)
    ensures SumMonthlyEbt(month) == SumMonthlyTax(month) + SumMonthlyProfit(month)
  {
    if month > 0 {
      TaxOnSumsUpTo(month - 1);
    }
  }

  /** Tax on the pooled year-to-date EBT is never more than the monthly
      taxes added up (a loss in one month offsets profit in another), so the
      year-to-date profit is never below the sum of the monthly profits. */
  lemma PooledTaxAtMostMonthlyTaxes(month: int)
    requires 1 <= month <= 12
    ensures YearToDateAt(month).tax <= SumMonthlyTax(month)
    ensures YearToDateAt(month).profit >= SumMonthlyProfit(month)
  {
    TaxOnSumsUpTo(month);
  }

  /** The running sums of the monthly EBTs, month by month. */
  lemma SumMonthlyEbtValues()
    ensures SumMonthlyEbt(1) == -14000.0 && SumMonthlyEbt(2) == -22000.0
    ensures SumMonthlyEbt(3) == -25000.0 && SumMonthlyEbt(4) == -24000.0
    ensures SumMonthlyEbt(5) == -21000.0 && SumMonthlyEbt(6) == -16000.0
    ensures SumMonthlyEbt(7) == -12500.0 && SumMonthlyEbt(8) == -10500.0
    ensures SumMonthlyEbt(9) == -4500.0 && SumMonthlyEbt(10) == 0.0
    ensures SumMonthlyEbt(11) == 7000.0 && SumMonthlyEbt(12) == 14000.0
  {
    assert SumMonthlyEbt(1) == -14000.0;
    assert SumMonthlyEbt(2) == -22000.0;
    assert SumMonthlyEbt(3) == -25000.0;
    assert SumMonthlyEbt(4) == -24000.0;
    assert SumMonthlyEbt(5) == -21000.0;
    assert SumMonthlyEbt(6) == -16000.0;
    assert SumMonthlyEbt(7) == -12500.0;
    assert SumMonthlyEbt(8) == -10500.0;
    assert SumMonthlyEbt(9) == -4500.0;
    assert SumMonthlyEbt(10) == 0.0;
    assert SumMonthlyEbt(11) == 7000.0;
  }

  /** At month 10 the year-to-date EBT is exactly 0: the year breaks even. */
  lemma YearBreaksEvenAtMonthTen()
    ensures YearToDateAt(10).ebt == 0.0 && YearToDateAt(10).profit == 0.0
  {
    SumMonthlyEbtValues();
  }

  /** The year-to-date profit is positive only from month 11 on. */
  lemma YearTurnsProfitableAtMonthEleven(month: int)
    requires 1 <= month <= 12
    ensures YearToDateAt(month).profit > 0.0 <==> month >= 11
  {
    SumMonthlyEbtValues();
    var e := SumMonthlyEbt(month);
    if month <= 10 {
      assert e <= 0.0 by {
        if month <= 5 {
          assert month == 1 || month == 2 || month == 3 || month == 4 || month == 5;
        } else {
          assert month == 6 || month == 7 || month == 8 || month == 9 || month == 10;
        }
      }
    } else {
      assert e > 0.0 by {
        assert month == 11 || month == 12;
      }
    }
  }

  /** The trend loop: for each month so far it recomputes that month's EBT,
      tax and profit and appends the profit; the revenues come from a list
      comprehension over the same months. */
  method MonthlyTrend(month: int) returns (revenues: seq<real>, profits: seq<real>)
    requires 1 <= month <= 12
    ensures |revenues| == month && |profits| == month
    ensures forall k :: 0 <= k < month ==> revenues[k] == Month(k + 1).revenue
    ensures forall k :: 0 <= k < month ==> profits[k] == MonthOutcome(k + 1).netIncome
  {
    revenues := seq(month, k requires 0 <= k < month => Month(k + 1).revenue);
    profits := [];
    var m := 1;
    while m <= month
      invariant 1 <= m <= month + 1
      invariant |profits| == m - 1
      invariant forall k :: 0 <= k < m - 1 ==> profits[k] == MonthOutcome(k + 1).netIncome
    {
      var mRev := Month(m).revenue;
      var mCogs := Month(m).cogs;
      var mOpex := Month(m).opex;
      var mEbt := mRev - mCogs - mOpex - MonthlyInterest;
      var mTax := MaxTax(mEbt);
      var mProfit := mEbt - mTax;
      profits := profits + [mProfit];
      m := m + 1;
    }
  }

  // ---------------------------------------------------------------------
  // Mobile app: startup to profitability
  // ---------------------------------------------------------------------

  /** One row of `quarters_data` (the story string is left out). */
  datatype QuarterFigures = QuarterFigures(users: int, revenue: real, opex: real)

  const QuartersData: seq<QuarterFigures> := [
    QuarterFigures(5000, 2000.0, 150000.0),
    QuarterFigures(25000, 10000.0, 180000.0),
    QuarterFigures(75000, 45000.0, 200000.0),
    QuarterFigures(150000, 120000.0, 220000.0),
    QuarterFigures(300000, 240000.0, 250000.0),
    QuarterFigures(500000, 400000.0, 280000.0),
    QuarterFigures(750000, 600000.0, 320000.0),
    QuarterFigures(1000000, 850000.0, 350000.0)
  ]

  /** Server and hosting costs as a share of revenue. */
  const ServerCostShare: real := 0.15

  /** `quarters_data[quarter]`; the slider offers quarters 1 to 8. */
  function Quarter(q: int): QuarterFigures
    requires 1 <= q <= 8
  {
    QuartersData[q - 1]
  }

  /** The quarter's P&L: COGS, gross and operating profit, and net income,
      which is operating profit (no interest or tax for the startup). */
  datatype AppOutcome = AppOutcome(cogs: real, grossProfit: real, operatingProfit: real, netIncome: real)

  function QuarterOutcome(q: int): (o: AppOutcome)
    requires 1 <= q <= 8
    ensures o.cogs == ServerCostShare * Quarter(q).revenue
    ensures o.grossProfit == Quarter(q).revenue - o.cogs
    ensures o.operatingProfit == o.grossProfit - Quarter(q).opex
    ensures o.netIncome == o.operatingProfit
    ensures o.netIncome == 0.85 * Quarter(q).revenue - Quarter(q).opex
  {
    var d := Quarter(q);
    var cogs := d.revenue * 0.15;
    var grossProfit := d.revenue - cogs;
    var operatingProfit := grossProfit - d.opex;
    AppOutcome(cogs, grossProfit, operatingProfit, operatingProfit)
  }

  /** Quarter 6 is the first profitable quarter; quarter 5, which the story
      calls the first profitable one, loses 46,000. */
  lemma FirstProfitableQuarterIsSix(q: int)
    requires 1 <= q <= 8
    ensures QuarterOutcome(q).netIncome > 0.0 <==> q >= 6
    ensures QuarterOutcome(5).netIncome == -46000.0
  {
    var d := Quarter(q);
    assert d == QuartersData[q - 1];
    if q <= 5 {
      assert 0.85 * d.revenue - d.opex < 0.0 by {
        assert q in {1, 2, 3, 4, 5};
      }
    } else {
      assert 0.85 * d.revenue - d.opex > 0.0 by {
        assert q in {6, 7, 8};
      }
    }
  }

  /** The year in the heading `Q{quarter} - Year {(quarter-1)//4 + 1}`. */
  function YearOf(q: int): (y: int)
    requires 1 <= q <= 8
    ensures q <= 4 ==> y == 1
    ensures q >= 5 ==> y == 2
  {
    (q - 1) / 4 + 1
  }

  /** Revenue per user, 0 when there are no users. */
  function RevenuePerUser(revenue: real, users: int): (arpu: real)
    ensures users <= 0 ==> arpu == 0.0
    ensures users > 0 ==> arpu * users as real == revenue
  {
    if users > 0 then revenue / users as real else 0.0
  }

  /** The users metric's delta: none in quarter 1, otherwise the growth over
      `quarters_data[max(1, quarter - 1)]`. */
  function UserGrowth(q: int): (g: Option<int>)
    requires 1 <= q <= 8
    ensures q == 1 <==> g == None
    ensures q > 1 ==> g == Some(Quarter(q).users - Quarter(q - 1).users)
  {
    if q > 1 then
      var previous := if 1 >= q - 1 then 1 else q - 1;
      Some(Quarter(q).users - Quarter(previous).users)
    else None
  }

  /** Users grow every quarter, so every delta shown is positive and no
      quarter hits the ARPU guard. */
  lemma UsersGrowEveryQuarter(q: int)
    requires 1 <= q <= 8
    ensures Quarter(q).users > 0
    ensures q > 1 ==> UserGrowth(q).Some? && UserGrowth(q).value > 0
  {
    assert Quarter(q) == QuartersData[q - 1];
    if q > 1 {
      assert Quarter(q - 1) == QuartersData[q - 2];
      assert Quarter(q).users > Quarter(q - 1).users by {
        assert q in {2, 3, 4, 5, 6, 7, 8};
      }
    } else {
      assert Quarter(q).users > 0;
    }
  }

  /** The profit trend loop: each quarter's revenue less 15 % server cost
      less operating expenses, which is that quarter's net income. */
  method QuarterlyTrend(quarter: int) returns (userTrend: seq<int>, revenueTrend: seq<real>, profitTrend: seq<real>)
    requires 1 <= quarter <= 8
    ensures |userTrend| == quarter && |revenueTrend| == quarter && |profitTrend| == quarter
    ensures forall k :: 0 <= k < quarter ==> userTrend[k] == Quarter(k + 1).users && revenueTrend[k] == Quarter(k + 1).revenue
    ensures forall k :: 0 <= k < quarter ==> profitTrend[k] == QuarterOutcome(k + 1).netIncome
  {
    userTrend := seq(quarter, k requires 0 <= k < quarter => Quarter(k + 1).users);
    revenueTrend := seq(quarter, k requires 0 <= k < quarter => Quarter(k + 1).revenue);
    profitTrend := [];
    var q := 1;
    while q <= quarter
      invariant 1 <= q <= quarter + 1
      invariant |profitTrend| == q - 1
      invariant forall k :: 0 <= k < q - 1 ==> profitTrend[k] == QuarterOutcome(k + 1).netIncome
    {
      var qRev := Quarter(q).revenue;
      var qCogs := qRev * 0.15;
      var qOpex := Quarter(q).opex;
      profitTrend := profitTrend + [qRev - qCogs - qOpex];
      q := q + 1;
    }
  }
}
