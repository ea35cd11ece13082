/** The balance-sheet learning page: grouped totals of assets, liabilities
    and equity, the balance check `assets - (liabilities + equity)` tested
    for exact equality with 0, and the slider simulation that recomputes the
    same totals from whole-number slider positions. */
module BalanceSheet {

  /** The ten number inputs of the page. */
  datatype Inputs = Inputs(
    cash: real, accountsReceivable: real, inventory: real, ppe: real, intangibleAssets: real,
    accountsPayable: real, shortTermDebt: real, longTermDebt: real,
    shareCapital: real, retainedEarnings: real)

  const Defaults: Inputs := Inputs(
    200000.0, 150000.0, 100000.0, 500000.0, 50000.0,
    80000.0, 70000.0, 300000.0,
    300000.0, 150000.0)

  /** Sum of a list of amounts. */
  function Sum(xs: seq<real>): real
  {
    if xs == [] then 0.0 else xs[0] + Sum(xs[1..])
  }

  /** The lines of each section, in the page's order. */
  function AssetLines(b: Inputs): seq<real>
  {
    [b.cash, b.accountsReceivable, b.inventory, b.ppe, b.intangibleAssets]
  }

  function LiabilityLines(b: Inputs): seq<real>
  {
    [b.accountsPayable, b.shortTermDebt, b.longTermDebt]
  }

  function EquityLines(b: Inputs): seq<real>
  {
    [b.shareCapital, b.retainedEarnings]
  }

  /** Each section's sum, written out line by line. */
  lemma SectionSums(b: Inputs)
    ensures Sum(AssetLines(b)) == b.cash + b.accountsReceivable + b.inventory + b.ppe + b.intangibleAssets
    ensures Sum(LiabilityLines(b)) == b.accountsPayable + b.shortTermDebt + b.longTermDebt
    ensures Sum(EquityLines(b)) == b.shareCapital + b.retainedEarnings
  {
    SumOfFive(b.cash, b.accountsReceivable, b.inventory, b.ppe, b.intangibleAssets);
    SumOfThree(b.accountsPayable, b.shortTermDebt, b.longTermDebt);
    SumOfTwo(b.shareCapital, b.retainedEarnings);
  }

  lemma SumOfTwo(x: real, y: real)
    ensures Sum([x, y]) == x + y
  {
    assert [x, y][1..] == [y];
    assert [y][1..] == [];
    assert Sum([y]) == y + Sum([]);
  }

  lemma SumOfThree(x: real, y: real, z: real)
    ensures Sum([x, y, z]) == x + y + z
  {
    assert [x, y, z][1..] == [y, z];
    SumOfTwo(y, z);
  }

  lemma SumOfFive(v: real, w: real, x: real, y: real, z: real)
    ensures Sum([v, w, x, y, z]) == v + w + x + y + z
  {
    assert [v, w, x, y, z][1..] == [w, x, y, z];
    assert [w, x, y, z][1..] == [x, y, z];
    SumOfThree(x, y, z);
  }

  /** The derived figures of the page. */
  datatype Totals = Totals(
    totalAssets: real, totalLiabilities: real, totalEquity: real,
    liabilitiesPlusEquity: real, balanceCheck: real)

  /** The totals: each section's total is the sum of its lines, and the
      balance check is what assets exceed liabilities plus equity by. */
  function Derive(b: Inputs): (t: Totals)
    ensures t.totalAssets == Sum(AssetLines(b))
    ensures t.totalLiabilities == Sum(LiabilityLines(b))
    ensures t.totalEquity == Sum(EquityLines(b))
    ensures t.liabilitiesPlusEquity == t.totalLiabilities + t.totalEquity
    ensures t.balanceCheck == t.totalAssets - t.liabilitiesPlusEquity
  {
    var totalAssets := b.cash + b.accountsReceivable + b.inventory + b.ppe + b.intangibleAssets;
    var totalLiabilities := b.accountsPayable + b.shortTermDebt + b.longTermDebt;
    var totalEquity := b.shareCapital + b.retainedEarnings;
    var liabilitiesPlusEquity := totalLiabilities + totalEquity;
    SectionSums(b);
    Totals(totalAssets, totalLiabilities, totalEquity, liabilitiesPlusEquity, totalAssets - liabilitiesPlusEquity)
  }

  /** "Balanced!" is shown when the check is exactly 0; there is no
      tolerance. */
  predicate Balanced(t: Totals)
  {
    t.balanceCheck == 0.0
  }

  /** The page reports "Balanced" exactly when the accounting identity
      assets = liabilities + equity holds, in both directions. */
  lemma BalancedIffIdentity(b: Inputs)
    ensures Balanced(Derive(b)) <==> Sum(AssetLines(b)) == Sum(LiabilityLines(b)) + Sum(EquityLines(b))
  {
  }

  /** The defaults are not balanced: assets 1,000,000 against liabilities
      plus equity 900,000, so the page opens on "Not Balanced! Difference =
      100,000". */
  lemma DefaultsAreNotBalanced()
    ensures Derive(Defaults) == Totals(1000000.0, 450000.0, 450000.0, 900000.0, 100000.0)
    ensures !Balanced(Derive(Defaults))
  {
  }

  // ---------------------------------------------------------------------
  // Editing one line
  // ---------------------------------------------------------------------

  /** The ten input lines. */
  datatype Line =
    | Cash | AccountsReceivable | Inventory | Ppe | IntangibleAssets
    | AccountsPayable | ShortTermDebt | LongTermDebt
    | ShareCapital | RetainedEarnings

  predicate IsAsset(l: Line)
  {
    l.Cash? || l.AccountsReceivable? || l.Inventory? || l.Ppe? || l.IntangibleAssets?
  }

  predicate IsLiability(l: Line)
  {
    l.AccountsPayable? || l.ShortTermDebt? || l.LongTermDebt?
  }

  /** The inputs after raising one line by `d`. */
  function Raise(b: Inputs, l: Line, d: real): Inputs
  {
    match l
    case Cash => b.(cash := b.cash + d)
    case AccountsReceivable => b.(accountsReceivable := b.accountsReceivable + d)
    case Inventory => b.(inventory := b.inventory + d)
    case Ppe => b.(ppe := b.ppe + d)
    case IntangibleAssets => b.(intangibleAssets := b.intangibleAssets + d)
    case AccountsPayable => b.(accountsPayable := b.accountsPayable + d)
    case ShortTermDebt => b.(shortTermDebt := b.shortTermDebt + d)
    case LongTermDebt => b.(longTermDebt := b.longTermDebt + d)
    case ShareCapital => b.(shareCapital := b.shareCapital + d)
    case RetainedEarnings => b.(retainedEarnings := b.retainedEarnings + d)
  }

  /** Raising one line by `d` raises only its own section's total by `d`;
      the balance check moves up by `d` for an asset line and down by `d`
      for a liability or equity line. */
  lemma RaisingOneLine(b: Inputs, l: Line, d: real)
    ensures var t, t' := Derive(b), Derive(Raise(b, l, d));
      && (IsAsset(l) ==>
            t'.totalAssets == t.totalAssets + d && t'.totalLiabilities == t.totalLiabilities
            && t'.totalEquity == t.totalEquity && t'.balanceCheck == t.balanceCheck + d)
      && (IsLiability(l) ==>
            t'.totalAssets == t.totalAssets && t'.totalLiabilities == t.totalLiabilities + d
            && t'.totalEquity == t.totalEquity && t'.balanceCheck == t.balanceCheck - d)
      && (!IsAsset(l) && !IsLiability(l) ==>
            t'.totalAssets == t.totalAssets && t'.totalLiabilities == t.totalLiabilities
            && t'.totalEquity == t.totalEquity + d && t'.balanceCheck == t.balanceCheck - d)
  {
  }

  // ---------------------------------------------------------------------
  // Scenario simulation
  // ---------------------------------------------------------------------

  /** The ten slider positions. Sliders are whole numbers from 0 up. */
  datatype SliderInputs = SliderInputs(
    cash: nat, accountsReceivable: nat, inventory: nat, ppe: nat, intangibleAssets: nat,
    accountsPayable: nat, shortTermDebt: nat, longTermDebt: nat,
    shareCapital: nat, retainedEarnings: nat)

  /** The slider positions read as amounts. */
  function AsAmounts(s: SliderInputs): Inputs
  {
    Inputs(s.cash as real, s.accountsReceivable as real, s.inventory as real, s.ppe as real,
           s.intangibleAssets as real, s.accountsPayable as real, s.shortTermDebt as real,
           s.longTermDebt as real, s.shareCapital as real, s.retainedEarnings as real)
  }

  /** The simulation's recomputation, in whole numbers: the same formulas as
      the main totals, and no total can be negative. */
  function Simulate(s: SliderInputs): (t: Totals)
    ensures t == Derive(AsAmounts(s))
    ensures t.totalAssets >= 0.0 && t.totalLiabilities >= 0.0 && t.totalEquity >= 0.0
  {
    var totalAssets := s.cash + s.accountsReceivable + s.inventory + s.ppe + s.intangibleAssets;
    var totalLiabilities := s.accountsPayable + s.shortTermDebt + s.longTermDebt;
    var totalEquity := s.shareCapital + s.retainedEarnings;
    var liabilitiesPlusEquity := totalLiabilities + totalEquity;
    Totals(totalAssets as real, totalLiabilities as real, totalEquity as real,
           liabilitiesPlusEquity as real, (totalAssets - liabilitiesPlusEquity) as real)
  }

  /** Python's `int(x)` on a non-negative amount: its whole part. */
  function WholePart(x: real): (n: nat)
    requires x >= 0.0
    ensures n as real <= x < n as real + 1.0
  {
    x.Floor
  }

  predicate NonNegative(b: Inputs)
  {
    && b.cash >= 0.0 && b.accountsReceivable >= 0.0 && b.inventory >= 0.0 && b.ppe >= 0.0
    && b.intangibleAssets >= 0.0 && b.accountsPayable >= 0.0 && b.shortTermDebt >= 0.0
    && b.longTermDebt >= 0.0 && b.shareCapital >= 0.0 && b.retainedEarnings >= 0.0
  }

  /** Where each slider starts: `int(...)` of the amount entered above. A
      slider with minimum 0 cannot start below it, so the amounts must be
      non-negative. */
  function SliderStart(b: Inputs): SliderInputs
    requires NonNegative(b)
  {
    SliderInputs(WholePart(b.cash), WholePart(b.accountsReceivable), WholePart(b.inventory),
                 WholePart(b.ppe), WholePart(b.intangibleAssets), WholePart(b.accountsPayable),
                 WholePart(b.shortTermDebt), WholePart(b.longTermDebt), WholePart(b.shareCapital),
                 WholePart(b.retainedEarnings))
  }

  predicate Whole(x: real)
  {
    x == x.Floor as real
  }

  /** With whole-number amounts, the untouched simulation reproduces the
      main totals and balance check exactly. */
  lemma SimulationStartsAtMainTotals(b: Inputs)
    requires NonNegative(b)
    requires Whole(b.cash) && Whole(b.accountsReceivable) && Whole(b.inventory) && Whole(b.ppe)
    requires Whole(b.intangibleAssets) && Whole(b.accountsPayable) && Whole(b.shortTermDebt)
    requires Whole(b.longTermDebt) && Whole(b.shareCapital) && Whole(b.retainedEarnings)
    ensures Simulate(SliderStart(b)) == Derive(b)
    ensures Balanced(Simulate(SliderStart(b))) <==> Balanced(Derive(b))
  {
    assert AsAmounts(SliderStart(b)) == b;
  }

  /** Each slider's starting position lies within its range: from 0 up to
      `int(2 * section total)`. */
  lemma SliderStartWithinRange(b: Inputs)
    requires NonNegative(b)
    ensures var s, t := SliderStart(b), Derive(b);
      && s.cash <= WholePart(2.0 * t.totalAssets)
      && s.accountsReceivable <= WholePart(2.0 * t.totalAssets)
      && s.inventory <= WholePart(2.0 * t.totalAssets)
      && s.ppe <= WholePart(2.0 * t.totalAssets)
      && s.intangibleAssets <= WholePart(2.0 * t.totalAssets)
      && s.accountsPayable <= WholePart(2.0 * t.totalLiabilities)
      && s.shortTermDebt <= WholePart(2.0 * t.totalLiabilities)
      && s.longTermDebt <= WholePart(2.0 * t.totalLiabilities)
      && s.shareCapital <= WholePart(2.0 * t.totalEquity)
      && s.retainedEarnings <= WholePart(2.0 * t.totalEquity)
  {
    var t := Derive(b);
    WholePartMonotone(b.cash, 2.0 * t.totalAssets);
    WholePartMonotone(b.accountsReceivable, 2.0 * t.totalAssets);
    WholePartMonotone(b.inventory, 2.0 * t.totalAssets);
    WholePartMonotone(b.ppe, 2.0 * t.totalAssets);
    WholePartMonotone(b.intangibleAssets, 2.0 * t.totalAssets);
    WholePartMonotone(b.accountsPayable, 2.0 * t.totalLiabilities);
    WholePartMonotone(b.shortTermDebt, 2.0 * t.totalLiabilities);
    WholePartMonotone(b.longTermDebt, 2.0 * t.totalLiabilities);
    WholePartMonotone(b.shareCapital, 2.0 * t.totalEquity);
    WholePartMonotone(b.retainedEarnings, 2.0 * t.totalEquity);
  }

  lemma WholePartMonotone(x: real, y: real)
    requires 0.0 <= x <= y
    ensures WholePart(x) <= WholePart(y)
  {
  }
}
