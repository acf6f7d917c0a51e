/**
 * The values the finance dashboard derives from its three query results
 * (portfolio summary, expense list, active goals) before rendering them:
 * the summary metrics, the five stat tiles, the two five-item lists and
 * the per-goal progress. Each query result may be absent (still loading).
 *
 * `parseFloat` on text is left abstract: every function that parses takes
 * the parser as a parameter `parse`, which may return any number, NaN
 * included.
 */
module Dashboard {
  import opened JsNumber

  datatype Option<T> = None | Some(value: T)

  /** A loosely typed numeric field as it arrives: absent, a JSON number, or text. */
  datatype Raw = Missing | Numeric(n: Number) | Text(s: string)

  datatype Portfolio = Portfolio(totalInvested: Option<Number>, currentValue: Option<Number>,
                                 totalProfitLoss: Option<Number>)

  datatype Expense = Expense(id: string, description: string, amount: Raw, expenseDate: string)

  datatype Goal = Goal(id: string, name: string, currentAmount: Raw, targetAmount: Raw)

  datatype Metrics = Metrics(totalExpenses: Number, totalInvested: Number, currentValue: Number,
                             totalProfitLoss: Number, activeGoals: nat)

  datatype Icon = CurrencyDollar | TrendingUp | TrendingDown | ChartBar | Target

  datatype Color = Blue | Green | Red | Yellow | Purple

  /** A tile shows a dollar amount or a count; the string formatting is not modelled. */
  datatype TileValue = Dollars(amount: Number) | Count(n: nat)

  datatype Tile = Tile(name: string, value: TileValue, icon: Icon, color: Color)

  datatype ExpenseRow = ExpenseRow(id: string, description: string, expenseDate: string, amount: Number)

  datatype GoalRow = GoalRow(id: string, name: string, progress: Number, current: Number, target: Number)

  datatype View = View(stats: seq<Tile>, recentExpenses: Option<seq<ExpenseRow>>, goals: Option<seq<GoalRow>>)

  const MaxListed: nat := 5

  // ---------------------------------------------------------------------------
  // Parsing and defaults

  /**
   * `parseFloat(raw)`: undefined gives NaN, a number parses back to itself,
   * text goes through the abstract parser.
   */
  function ParseFloat(parse: string -> Number, raw: Raw): (r: Number)
    ensures raw.Missing? ==> r.NaN?
    ensures raw.Numeric? ==> r == raw.n
    ensures raw.Text? ==> r == parse(raw.s)
  {
    match raw
    case Missing => NaN
    case Numeric(n) => n
    case Text(s) => parse(s)
  }

  /** `x || 0`, where `x` may be undefined (the result of an optional chain). */
  function OrZero(x: Option<Number>): (r: Number)
    ensures !r.NaN?
    ensures x.None? || !Truthy(x.value) ==> r == Zero
    ensures x.Some? && Truthy(x.value) ==> r == x.value
  {
    if x.Some? && Truthy(x.value) then x.value else Zero
  }

  // ---------------------------------------------------------------------------
  // Total expenses

  /** The parsed amounts of the expenses, in source order. */
  function Amounts(parse: string -> Number, expenses: seq<Expense>): (xs: seq<Number>)
    ensures |xs| == |expenses|
  {
    seq(|expenses|, i requires 0 <= i < |expenses| => ParseFloat(parse, expenses[i].amount))
  }

  /** `xs.reduce((sum, x) => sum + x, acc)`: a left-to-right sum. */
  function Reduce(acc: Number, xs: seq<Number>): (r: Number)
    ensures acc.NaN? || NaN in xs ==> r.NaN?
    ensures acc.Finite? && (forall i :: 0 <= i < |xs| ==> xs[i].Finite?) ==> r.Finite?
    decreases |xs|
  {
    if xs == [] then acc else Reduce(Add(acc, xs[0]), xs[1..])
  }

  /** The sum of the real values in `xs`, infinities and NaN counted as 0. */
  function RealSum(xs: seq<Number>): real {
    if xs == [] then 0.0 else (if xs[0].Finite? then xs[0].v else 0.0) + RealSum(xs[1..])
  }

  /**
   * Reference definition of the sum of a sequence of numbers: NaN if some
   * term is NaN or both infinities occur, else the infinity that occurs,
   * else the real sum.
   */
  function ExtendedSum(xs: seq<Number>): Number {
    if NaN in xs || (PosInf in xs && NegInf in xs) then NaN
    else if PosInf in xs then PosInf
    else if NegInf in xs then NegInf
    else Finite(RealSum(xs))
  }

  lemma RealSumCons2(a: Number, b: Number, xs: seq<Number>)
    requires a.Finite? && b.Finite?
    ensures RealSum([Finite(a.v + b.v)] + xs) == RealSum([a, b] + xs)
  {
  }

  /** The left-to-right `reduce` computes the extended sum of the start value and the terms. */
  lemma {:induction false} ReduceIsExtendedSum(acc: Number, xs: seq<Number>)
    ensures Reduce(acc, xs) == ExtendedSum([acc] + xs)
    decreases |xs|
  {
    if xs == [] {
      assert [acc] + xs == [acc] && [acc][1..] == [];
      assert RealSum([acc]) == (if acc.Finite? then acc.v else 0.0) + RealSum([]);
    } else {
      var x, rest := xs[0], xs[1..];
      assert xs == [x] + rest;
      ReduceIsExtendedSum(Add(acc, x), rest);
      assert [acc] + xs == [acc, x] + rest;
      forall y | y != acc && y != x
        ensures y in [acc, x] + rest <==> y in rest
        ensures y in [Add(acc, x)] + rest <==> y == Add(acc, x) || y in rest
      {
      }
      if acc.Finite? && x.Finite? {
        RealSumCons2(acc, x, rest);
      }
    }
  }

  /**
   * `expenses?.reduce((sum, e) => sum + parseFloat(e.amount), 0) || 0`.
   * Never NaN, and 0 when the list is absent or empty.
   */
  function TotalExpenses(parse: string -> Number, expenses: Option<seq<Expense>>): (r: Number)
    ensures !r.NaN?
    ensures expenses.None? || expenses.value == [] ==> r == Zero
  {
    OrZero(if expenses.None? then None else Some(Reduce(Zero, Amounts(parse, expenses.value))))
  }

  /** Every amount parses to a real number, so the total is their real sum. */
  lemma TotalExpensesAllParsed(parse: string -> Number, expenses: seq<Expense>)
    requires forall i :: 0 <= i < |expenses| ==> ParseFloat(parse, expenses[i].amount).Finite?
    ensures TotalExpenses(parse, Some(expenses)) == Finite(RealSum(Amounts(parse, expenses)))
  {
    var xs := Amounts(parse, expenses);
    ReduceIsExtendedSum(Zero, xs);
    assert NaN !in [Zero] + xs && PosInf !in [Zero] + xs && NegInf !in [Zero] + xs;
    assert ([Zero] + xs)[1..] == xs;
  }

  /**
   * One amount that does not parse makes the whole sum NaN, and `|| 0` then
   * replaces the entire total by 0, not only that expense's share.
   */
  lemma TotalExpensesUnparsable(parse: string -> Number, expenses: seq<Expense>, k: nat)
    requires k < |expenses| && ParseFloat(parse, expenses[k].amount).NaN?
    ensures TotalExpenses(parse, Some(expenses)) == Zero
  {
    var xs := Amounts(parse, expenses);
    ReduceIsExtendedSum(Zero, xs);
    assert ([Zero] + xs)[k + 1] == NaN;
  }

  /**
   * The total in every case: 0 when some amount is NaN or both infinities
   * occur (NaN, then `|| 0`), the infinity when only one kind occurs, and
   * otherwise the real sum of the amounts.
   */
  lemma TotalExpensesCharacterised(parse: string -> Number, expenses: seq<Expense>)
    ensures var xs := Amounts(parse, expenses);
            TotalExpenses(parse, Some(expenses)) ==
              if NaN in xs || (PosInf in xs && NegInf in xs) then Zero
              else if PosInf in xs then PosInf
              else if NegInf in xs then NegInf
              else Finite(RealSum(xs))
  {
    var xs := Amounts(parse, expenses);
    ReduceIsExtendedSum(Zero, xs);
    assert ([Zero] + xs)[1..] == xs;
    forall y | y != Zero ensures y in [Zero] + xs <==> y in xs { }
  }

  // ---------------------------------------------------------------------------
  // Summary metrics

  /** `goals?.length || 0` */
  function ActiveGoals(goals: Option<seq<Goal>>): (n: nat)
    ensures goals.None? ==> n == 0
    ensures goals.Some? ==> n == |goals.value|
  {
    if goals.None? then 0 else |goals.value|
  }

  /** The five figures the dashboard computes before building its tiles. */
  function Aggregate(parse: string -> Number, portfolio: Option<Portfolio>,
                     expenses: Option<seq<Expense>>, goals: Option<seq<Goal>>): (m: Metrics)
    ensures m.totalExpenses == TotalExpenses(parse, expenses)
    ensures portfolio.None? ==> m.totalInvested == Zero && m.currentValue == Zero && m.totalProfitLoss == Zero
    ensures portfolio.Some? ==>
              && m.totalInvested == OrZero(portfolio.value.totalInvested)
              && m.currentValue == OrZero(portfolio.value.currentValue)
              && m.totalProfitLoss == OrZero(portfolio.value.totalProfitLoss)
    ensures m.activeGoals == ActiveGoals(goals)
  {
    Metrics(
      TotalExpenses(parse, expenses),
      OrZero(if portfolio.None? then None else portfolio.value.totalInvested),
      OrZero(if portfolio.None? then None else portfolio.value.currentValue),
      OrZero(if portfolio.None? then None else portfolio.value.totalProfitLoss),
      ActiveGoals(goals))
  }

  /** No figure of the metrics is ever NaN, whatever the inputs. */
  lemma AggregateNeverNaN(parse: string -> Number, portfolio: Option<Portfolio>,
                          expenses: Option<seq<Expense>>, goals: Option<seq<Goal>>)
    ensures var m := Aggregate(parse, portfolio, expenses, goals);
            !m.totalExpenses.NaN? && !m.totalInvested.NaN? && !m.currentValue.NaN? && !m.totalProfitLoss.NaN?
  {
  }

  // ---------------------------------------------------------------------------
  // Stat tiles

  /** The five stat tiles, in their fixed order. */
  function Stats(m: Metrics): (tiles: seq<Tile>)
    ensures |tiles| == 5
    ensures tiles[0] == Tile("Total Invested", Dollars(m.totalInvested), CurrencyDollar, Blue)
    ensures tiles[1] == Tile("Current Value", Dollars(m.currentValue), TrendingUp, Green)
    ensures tiles[2].name == "Total P&L" && tiles[2].value == Dollars(m.totalProfitLoss)
    ensures tiles[2].icon == TrendingUp <==> AtLeast(m.totalProfitLoss, Zero)
    ensures tiles[2].icon == TrendingDown <==> !AtLeast(m.totalProfitLoss, Zero)
    ensures tiles[2].color == Green <==> AtLeast(m.totalProfitLoss, Zero)
    ensures tiles[2].color == Red <==> !AtLeast(m.totalProfitLoss, Zero)
    ensures tiles[3] == Tile("Total Expenses", Dollars(m.totalExpenses), ChartBar, Yellow)
    ensures tiles[4] == Tile("Active Goals", Count(m.activeGoals), Target, Purple)
  {
    var gain := AtLeast(m.totalProfitLoss, Zero);
    [ Tile("Total Invested", Dollars(m.totalInvested), CurrencyDollar, Blue),
      Tile("Current Value", Dollars(m.currentValue), TrendingUp, Green),
      Tile("Total P&L", Dollars(m.totalProfitLoss), if gain then TrendingUp else TrendingDown,
           if gain then Green else Red),
      Tile("Total Expenses", Dollars(m.totalExpenses), ChartBar, Yellow),
      Tile("Active Goals", Count(m.activeGoals), Target, Purple) ]
  }

  /**
   * Because the profit/loss figure is never NaN, the P&L tile is up and green
   * exactly when it is not negative, and down and red exactly when it is.
   */
  lemma ProfitLossTileBySign(parse: string -> Number, portfolio: Option<Portfolio>,
                             expenses: Option<seq<Expense>>, goals: Option<seq<Goal>>)
    ensures var m := Aggregate(parse, portfolio, expenses, goals);
            var tile := Stats(m)[2];
            (tile.icon == TrendingUp && tile.color == Green <==> !Less(m.totalProfitLoss, Zero)) &&
            (tile.icon == TrendingDown && tile.color == Red <==> Less(m.totalProfitLoss, Zero))
  {
  }

  // ---------------------------------------------------------------------------
  // The two lists

  /** `s.slice(0, 5)`: the first five elements in source order, or all of them. */
  function FirstFive<T>(s: seq<T>): (r: seq<T>)
    ensures |r| == if |s| < MaxListed then |s| else MaxListed
    ensures r <= s
  {
    if |s| < MaxListed then s else s[..MaxListed]
  }

  function ExpenseRowOf(parse: string -> Number, e: Expense): ExpenseRow {
    ExpenseRow(e.id, e.description, e.expenseDate, ParseFloat(parse, e.amount))
  }

  /** `expenses?.slice(0, 5).map(...)` */
  function RecentExpenses(parse: string -> Number, expenses: Option<seq<Expense>>): (r: Option<seq<ExpenseRow>>)
    ensures r.None? <==> expenses.None?
    ensures r.Some? ==> |r.value| == if |expenses.value| < MaxListed then |expenses.value| else MaxListed
    ensures r.Some? ==> forall i :: 0 <= i < |r.value| ==> r.value[i] == ExpenseRowOf(parse, expenses.value[i])
  {
    if expenses.None? then None
    else
      var first := FirstFive(expenses.value);
      Some(seq(|first|, i requires 0 <= i < |first| => ExpenseRowOf(parse, first[i])))
  }

  // ---------------------------------------------------------------------------
  // Goal progress

  /**
   * `Math.min(current / target * 100, 100)`. Never above 100 and never +Infinity;
   * there is no lower clamp. NaN exactly when an operand is NaN, both are 0
   * or both are infinite.
   */
  function Progress(current: Number, target: Number): (r: Number)
    ensures r != PosInf
    ensures r.Finite? ==> r.v <= 100.0
    ensures r.NaN? <==> current.NaN? || target.NaN? || (current == Zero && target == Zero)
                        || (!current.Finite? && !target.Finite?)
    ensures current.Finite? && target.Finite? && target.v != 0.0 ==>
              r == Finite(if current.v / target.v * 100.0 < 100.0 then current.v / target.v * 100.0 else 100.0)
  {
    Min(Mul(Div(current, target), Finite(100.0)), Finite(100.0))
  }

  /** A zero target gives 100 for a positive current amount, NaN for 0 and -Infinity for a negative one. */
  lemma ProgressZeroTarget(current: Number)
    requires current.Finite?
    ensures current.v > 0.0 ==> Progress(current, Zero) == Finite(100.0)
    ensures current.v == 0.0 ==> Progress(current, Zero).NaN?
    ensures current.v < 0.0 ==> Progress(current, Zero) == NegInf
  {
  }

  /** Progress is negative whenever the current amount is negative and the target positive. */
  lemma ProgressNoLowerClamp(current: Number, target: Number)
    requires current.Finite? && target.Finite? && current.v < 0.0 < target.v
    ensures Progress(current, target).Finite? && Progress(current, target).v < 0.0
  {
  }

  /** A goal whose current amount has reached a positive target shows exactly 100. */
  lemma ProgressReachedGoal(current: Number, target: Number)
    requires current.Finite? && target.Finite? && 0.0 < target.v <= current.v
    ensures Progress(current, target) == Finite(100.0)
  {
  }

  function GoalRowOf(parse: string -> Number, g: Goal): GoalRow {
    var current := ParseFloat(parse, g.currentAmount);
    var target := ParseFloat(parse, g.targetAmount);
    GoalRow(g.id, g.name, Progress(current, target), current, target)
  }

  /** `goals?.slice(0, 5).map(...)`, each goal annotated with its progress. */
  function GoalRows(parse: string -> Number, goals: Option<seq<Goal>>): (r: Option<seq<GoalRow>>)
    ensures r.None? <==> goals.None?
    ensures r.Some? ==> |r.value| == if |goals.value| < MaxListed then |goals.value| else MaxListed
    ensures r.Some? ==> forall i :: 0 <= i < |r.value| ==>
              r.value[i] == GoalRowOf(parse, goals.value[i]) && !(r.value[i].progress == PosInf)
  {
    if goals.None? then None
    else
      var first := FirstFive(goals.value);
      Some(seq(|first|, i requires 0 <= i < |first| => GoalRowOf(parse, first[i])))
  }

  // ---------------------------------------------------------------------------
  // The whole dashboard

  function Derive(parse: string -> Number, portfolio: Option<Portfolio>,
                  expenses: Option<seq<Expense>>, goals: Option<seq<Goal>>): (v: View)
    ensures v.stats == Stats(Aggregate(parse, portfolio, expenses, goals))
    ensures v.recentExpenses == RecentExpenses(parse, expenses)
    ensures v.goals == GoalRows(parse, goals)
    ensures |v.stats| == 5
    ensures v.recentExpenses.Some? ==> |v.recentExpenses.value| <= MaxListed
    ensures v.goals.Some? ==> |v.goals.value| <= MaxListed
  {
    View(Stats(Aggregate(parse, portfolio, expenses, goals)),
         RecentExpenses(parse, expenses), GoalRows(parse, goals))
  }

  /** With nothing loaded yet, every tile shows zero and neither list is shown. */
  lemma NothingLoaded(parse: string -> Number)
    ensures var v := Derive(parse, None, None, None);
            v.stats[0].value == Dollars(Zero) && v.stats[1].value == Dollars(Zero) &&
            v.stats[2].value == Dollars(Zero) && v.stats[2].color == Green &&
            v.stats[3].value == Dollars(Zero) && v.stats[4].value == Count(0) &&
            v.recentExpenses.None? && v.goals.None?
  {
  }

  /**
   * Amounts "12.50", "not-a-number" and 7: the unparsable middle amount
   * drops the whole total to 0.
   */
  lemma ExampleMixedAmounts(parse: string -> Number)
    requires parse("12.50") == Finite(12.5) && parse("not-a-number").NaN?
    ensures TotalExpenses(parse, Some([Expense("1", "a", Text("12.50"), "2024-01-01"),
                                        Expense("2", "b", Text("not-a-number"), "2024-01-02"),
                                        Expense("3", "c", Numeric(Finite(7.0)), "2024-01-03")])) == Zero
  {
    var es := [Expense("1", "a", Text("12.50"), "2024-01-01"),
               Expense("2", "b", Text("not-a-number"), "2024-01-02"),
               Expense("3", "c", Numeric(Finite(7.0)), "2024-01-03")];
    TotalExpensesUnparsable(parse, es, 1);
  }

  /** A portfolio at a loss of 100 gets a red, downward P&L tile showing -100. */
  lemma ExampleLoss(parse: string -> Number)
    ensures var tile := Derive(parse, Some(Portfolio(Some(Finite(1000.0)), Some(Finite(900.0)), Some(Finite(-100.0)))),
                               None, None).stats[2];
            tile.value == Dollars(Finite(-100.0)) && tile.icon == TrendingDown && tile.color == Red
  {
  }

  /** A goal of 300 towards a target of 0 shows 100, not 0. */
  lemma ExampleZeroTarget(parse: string -> Number)
    ensures var rows := GoalRows(parse, Some([Goal("g", "Car", Numeric(Finite(300.0)), Numeric(Zero))]));
            rows.Some? && |rows.value| == 1 && rows.value[0].progress == Finite(100.0)
  {
  }
}
