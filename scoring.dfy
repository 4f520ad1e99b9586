/** `BankingMLService.calculate_benefits` and the ten `_calculate_*_benefit`
    formulas.

    Each formula is a function of the client's feature row and of `u`, the value
    that `self.random.random()` returns when the formula asks for it. A formula
    that returns early never reads `u`; `ReturnsEarly` is the condition of those
    early returns, and the scoring loop draws from the generator only when it is
    false. A missing metric is NaN in the source: a comparison with it is false,
    so guards on metrics do not fire; arithmetic with it gives NaN; and
    Python's `min(c, NaN)` is `c`, since NaN never compares smaller. */
module Scoring {
  import opened Common
  import opened Catalog
  import opened Features

  /** The early-return guards of the formulas (`if ...: return 0`). */
  predicate ReturnsEarly(p: Product, row: Row) {
    var balance := row.client.balance;
    var known := row.metrics.Some?;
    match p
    case SavingsDeposit => false
    case AccumulativeDeposit => false
    case MultiCurrencyDeposit => false
    case CashLoan => (known && row.metrics.value.outflows < 100000.0) || balance < 50000.0
    case TravelCard => known && row.metrics.value.travel < 5000.0
    case CreditCard => known && row.metrics.value.total < 30000.0
    case PremiumCard => balance < 500000.0
    case FxAccount => !row.hasFx && balance < 200000.0
    case Investments =>
      balance < 200000.0 || (known && row.metrics.value.total < 100000.0)
      || (known && balance - row.metrics.value.total < 50000.0)
    case GoldBars => balance < 500000.0
  }

  /** `_calculate_deposit_benefit(row, annual_rate, min_balance, optimal_balance)`. */
  function DepositBenefit(row: Row, annualRate: real, minBalance: real, optimalBalance: real, u: real): (r: Num)
    ensures r.Real?
    ensures annualRate > 0.0 && row.client.balance > 0.0 && u >= 0.0 ==> r.v > 0.0
  {
    var balance := row.client.balance;
    var age := row.client.age as real;
    var base := balance * annualRate / 12.0;
    var ageFactor := if age < 25.0 then 0.6 else if age > 50.0 then 1.3 else 1.0 + (age - 30.0) * 0.015;
    var balanceFactor :=
      if balance < minBalance then 0.5
      else if minBalance <= balance <= optimalBalance then 1.2
      else 1.0;
    // free_money = balance - TOTAL_m; when TOTAL_m is NaN, `free_money > 0` is false
    var conservatism := match row.metrics
      case Some(m) => if balance - m.total > 0.0 then Min(1.3, 1.0 + (balance - m.total) / 300000.0) else 0.7
      case None => 0.7;
    var randomFactor := 0.9 + u * 0.2;
    assert ageFactor > 0.0 && balanceFactor > 0.0 && conservatism > 0.0;
    assert u >= 0.0 ==> randomFactor > 0.0;
    PositiveProduct5(base, ageFactor, balanceFactor, conservatism, randomFactor);
    Real(base * ageFactor * balanceFactor * conservatism * randomFactor)
  }

  /** `_calculate_credit_benefit`: cash loan. */
  function CashLoanBenefit(row: Row, u: real): (r: Num)
    ensures ((row.metrics.Some? && row.metrics.value.outflows < 100000.0) || row.client.balance < 50000.0)
      ==> r == Real(0.0)
    ensures row.metrics.Some? ==> r.Real?
    ensures row.metrics.Some? && u >= 0.0 ==> (r.v > 0.0 <==> !ReturnsEarly(CashLoan, row))
    ensures row.metrics.None? && !ReturnsEarly(CashLoan, row) ==> r.NaN?
  {
    if ReturnsEarly(CashLoan, row) then Real(0.0)
    else match row.metrics
      case None => NaN  // OUTFLOWS_m * 0.05 is NaN
      case Some(m) =>
        var balance := row.client.balance;
        var age := row.client.age as real;
        var base := m.outflows * 0.05;
        var ageFactor := Clamp(0.5, 1.5, 1.5 - (age - 25.0) * 0.02);
        var ccFactor := if row.hasCc then 1.2 else 0.8;
        var stability := Min(1.5, balance / 200000.0);
        var randomFactor := 0.7 + u * 0.6;
        assert base > 0.0 && stability > 0.0;
        assert u >= 0.0 ==> randomFactor > 0.0;
        PositiveProduct5(base, ageFactor, ccFactor, stability, randomFactor);
        Real(base * ageFactor * ccFactor * stability * randomFactor)
  }

  /** `_calculate_travel_card_benefit`. */
  function TravelCardBenefit(row: Row, u: real): (r: Num)
    ensures row.metrics.Some? && row.metrics.value.travel < 5000.0 ==> r == Real(0.0)
    ensures row.metrics.Some? <==> r.Real?
  {
    if ReturnsEarly(TravelCard, row) then Real(0.0)
    else match row.metrics
      case None => NaN  // TRAVEL_m * 0.06 is NaN
      case Some(m) =>
        var age := row.client.age as real;
        var base := m.travel * 0.06;
        var ratio := m.travel / Max(m.total, 1.0);
        var ratioFactor := Min(2.5, ratio * 15.0);
        var ageFactor := if age < 35.0 then 1.4 else if age < 50.0 then 1.1 else 0.8;
        var activity := 1.0 + (m.total / 150000.0) * 0.3;
        var seasonal := 0.9 + u * 0.2;
        Real(base * ratioFactor * ageFactor * activity * seasonal)
  }

  /** The number of positive `_m` columns of a row: every category column (each
      pivot column ends in `_m`) and TRAVEL_m, ONLINE_m, TOP3_m, INFLOWS_m,
      OUTFLOWS_m and TOTAL_m. */
  function PositiveColumns(m: Metrics): (n: nat)
    ensures n <= |m.columns| + 6
  {
    PositiveRates(m.columns)
      + (if m.travel > 0.0 then 1 else 0) + (if m.online > 0.0 then 1 else 0)
      + (if m.top3 > 0.0 then 1 else 0) + (if m.inflows > 0.0 then 1 else 0)
      + (if m.outflows > 0.0 then 1 else 0) + (if m.total > 0.0 then 1 else 0)
  }

  function PositiveRates(cols: seq<Column>): (n: nat)
    ensures n <= |cols|
    decreases |cols|
  {
    if |cols| == 0 then 0 else (if cols[0].rate > 0.0 then 1 else 0) + PositiveRates(cols[1..])
  }

  /** `_calculate_credit_card_benefit`. */
  function CreditCardBenefit(row: Row, u: real): (r: Num)
    ensures row.metrics.Some? && row.metrics.value.total < 30000.0 ==> r == Real(0.0)
    ensures row.metrics.Some? <==> r.Real?
  {
    if ReturnsEarly(CreditCard, row) then Real(0.0)
    else match row.metrics
      case None => NaN  // TOP3_m * 0.12 + ONLINE_m * 0.08 is NaN
      case Some(m) =>
        var age := row.client.age as real;
        var base := m.top3 * 0.12 + m.online * 0.08;
        var diversity := Min(1.8, PositiveColumns(m) as real / 3.0);
        var ageFactor := Clamp(0.5, 1.5, if 25.0 <= age <= 45.0 then 1.2 else 0.8);
        var stability := Min(1.5, m.total / 80000.0);
        var activity := 1.0 + (m.total / 200000.0) * 0.5;
        var randomFactor := 0.9 + u * 0.2;
        Real(base * diversity * ageFactor * stability * activity * randomFactor)
  }

  /** `_calculate_premium_card_benefit`. */
  function PremiumCardBenefit(row: Row, u: real): (r: Num)
    ensures row.client.balance < 500000.0 ==> r == Real(0.0)
    ensures row.client.balance >= 500000.0 ==> (row.metrics.Some? <==> r.Real?)
  {
    if ReturnsEarly(PremiumCard, row) then Real(0.0)
    else match row.metrics
      case None => NaN  // TOTAL_m * 0.02 is NaN
      case Some(m) =>
        var balance := row.client.balance;
        var age := row.client.age as real;
        var base := m.total * 0.02;
        var statusFactor := if Contains(row.client.status, "Премиальный") then 1.5 else 1.0;
        var ageFactor := Clamp(0.8, 1.3, 1.0 + (age - 30.0) * 0.01);
        var balanceFactor := Min(1.5, balance / 1000000.0);
        var randomFactor := 0.9 + u * 0.2;
        Real(base * statusFactor * ageFactor * balanceFactor * randomFactor)
  }

  /** `_calculate_fx_account_benefit`: multi-currency account. */
  function FxAccountBenefit(row: Row, u: real): (r: Num)
    ensures r.Real?
    ensures !row.hasFx && row.client.balance < 200000.0 ==> r == Real(0.0)
    ensures row.client.balance > 0.0 && u >= 0.0 ==> (r.v > 0.0 <==> !ReturnsEarly(FxAccount, row))
  {
    if ReturnsEarly(FxAccount, row) then Real(0.0)
    else
      var balance := row.client.balance;
      var age := row.client.age as real;
      var base := balance * 0.12 / 12.0;
      var fxFactor := if row.hasFx then 2.0 else 0.5;
      var ageFactor := Clamp(0.7, 1.2, 1.0 + Abs(age - 40.0) * -0.01);
      var randomFactor := 0.7 + u * 0.6;
      assert u >= 0.0 ==> randomFactor > 0.0;
      PositiveProduct4(base, fxFactor, ageFactor, randomFactor);
      Real(base * fxFactor * ageFactor * randomFactor)
  }

  /** `_calculate_investment_benefit`. Without metrics the spend guards do not
      fire and both `min(1.2, NaN)` and `min(1.5, NaN)` give their constant, so
      the benefit is a number. */
  function InvestmentBenefit(row: Row, u: real): (r: Num)
    ensures r.Real?
    ensures row.client.balance < 200000.0 ==> r == Real(0.0)
    ensures row.metrics.Some? && row.metrics.value.total < 100000.0 ==> r == Real(0.0)
    ensures row.metrics.Some? && row.client.balance - row.metrics.value.total < 50000.0 ==> r == Real(0.0)
    ensures u >= 0.0 ==> (r.v > 0.0 <==> !ReturnsEarly(Investments, row))
  {
    if ReturnsEarly(Investments, row) then Real(0.0)
    else
      var balance := row.client.balance;
      var age := row.client.age as real;
      var base := balance * 0.008;
      var ageFactor := Clamp(0.2, 1.2, if age < 25.0 || age > 50.0 then 0.3 else 1.0 + Abs(age - 35.0) * -0.02);
      var freeFactor := match row.metrics
        case Some(m) => Min(1.2, (balance - m.total) / 200000.0)
        case None => 1.2;
      var riskFactor := 0.3 + u * 0.4;
      var incomeFactor := match row.metrics
        case Some(m) => Min(1.5, m.total / 200000.0)
        case None => 1.5;
      assert base > 0.0 && freeFactor > 0.0 && incomeFactor > 0.0;
      assert u >= 0.0 ==> riskFactor > 0.0;
      PositiveProduct5(base, ageFactor, freeFactor, riskFactor, incomeFactor);
      Real(base * ageFactor * freeFactor * riskFactor * incomeFactor)
  }

  /** `_calculate_gold_benefit`. */
  function GoldBenefit(row: Row, u: real): (r: Num)
    ensures r.Real?
    ensures row.client.balance < 500000.0 ==> r == Real(0.0)
    ensures u >= 0.0 ==> (r.v > 0.0 <==> row.client.balance >= 500000.0)
  {
    if ReturnsEarly(GoldBars, row) then Real(0.0)
    else
      var balance := row.client.balance;
      var age := row.client.age as real;
      var base := balance * 0.008;
      var ageFactor := Clamp(0.7, 1.3, 1.0 + (age - 40.0) * 0.01);
      var balanceFactor := Min(1.3, balance / 2000000.0);
      var randomFactor := 0.3 + u * 1.4;
      assert base > 0.0 && balanceFactor > 0.0;
      assert u >= 0.0 ==> randomFactor > 0.0;
      PositiveProduct4(base, ageFactor, balanceFactor, randomFactor);
      Real(base * ageFactor * balanceFactor * randomFactor)
  }

  /** The guards decide the sign of the benefit for the seven products whose
      formulas have no other factor that can vanish: for a row with metrics, a
      positive balance and a draw in [0, 1), the benefit is positive exactly
      when the formula does not return early. */
  lemma GuardDecidesPositive(p: Product, row: Row, u: real)
    requires p != TravelCard && p != CreditCard && p != PremiumCard
    requires row.metrics.Some? && row.client.balance > 0.0 && 0.0 <= u < 1.0
    ensures Formula(p, row, u).Positive() <==> !ReturnsEarly(p, row)
  {
  }

  lemma PositiveProduct4(a: real, b: real, c: real, d: real)
    ensures a > 0.0 && b > 0.0 && c > 0.0 && d > 0.0 ==> a * b * c * d > 0.0
  {
    if a > 0.0 && b > 0.0 && c > 0.0 && d > 0.0 {
      assert a * b > 0.0;
      assert a * b * c > 0.0;
    }
  }

  lemma PositiveProduct5(a: real, b: real, c: real, d: real, e: real)
    ensures a > 0.0 && b > 0.0 && c > 0.0 && d > 0.0 && e > 0.0 ==> a * b * c * d * e > 0.0
  {
    PositiveProduct4(a, b, c, d);
    if a > 0.0 && b > 0.0 && c > 0.0 && d > 0.0 && e > 0.0 {
      assert a * b * c * d > 0.0;
    }
  }

  /** `benefit_formulas[p](row)` given the next draw `u`. */
  function Formula(p: Product, row: Row, u: real): (r: Num)
    ensures ReturnsEarly(p, row) ==> r == Real(0.0)
    ensures row.metrics.Some? ==> r.Real?
  {
    match p
    case SavingsDeposit => DepositBenefit(row, 0.165, 50000.0, 200000.0, u)
    case CashLoan => CashLoanBenefit(row, u)
    case TravelCard => TravelCardBenefit(row, u)
    case CreditCard => CreditCardBenefit(row, u)
    case PremiumCard => PremiumCardBenefit(row, u)
    case FxAccount => FxAccountBenefit(row, u)
    case AccumulativeDeposit => DepositBenefit(row, 0.155, 30000.0, 150000.0, u)
    case MultiCurrencyDeposit => DepositBenefit(row, 0.145, 40000.0, 180000.0, u)
    case Investments => InvestmentBenefit(row, u)
    case GoldBars => GoldBenefit(row, u)
  }

  /** `.clip(lower=0)` then `.clip(upper=cap)`; pandas leaves NaN as it is. */
  function Clip(x: Num, cap: real): (r: Num)
    requires cap > 0.0
    ensures r.NaN? <==> x.NaN?
    ensures r.Real? ==> 0.0 <= r.v <= cap
    ensures x.Real? && 0.0 <= x.v <= cap ==> r == x
    ensures x.Real? && x.v > 0.0 ==> r.Real? && r.v > 0.0
  {
    match x
    case NaN => NaN
    case Real(v) => Real(Min(Max(v, 0.0), cap))
  }

  /** A benefit cell as it stands after `calculate_benefits`. */
  predicate WithinCap(b: Num, p: Product) {
    b.NaN? || 0.0 <= b.v <= Cap(p)
  }

  /** One cell of the benefit table and the generator position after it. */
  datatype Cell = Cell(value: Num, next: nat)

  /** A table of formulas, one per product, each reading the feature row and
      the draw. The scoring pass is stated for any such table; `Formula` is the
      one `calculate_benefits` uses. Stating the draw accounting this way keeps
      it apart from what the formulas compute. */
  type FormulaTable = (Product, Row, real) -> Num

  /** `f` gives a number for every row that has metrics. */
  ghost predicate Numeric(f: FormulaTable) {
    forall p: Product, row: Row, u: real :: row.metrics.Some? ==> f(p, row, u).Real?
  }

  lemma NumericAt(f: FormulaTable, p: Product, row: Row, u: real)
    ensures Numeric(f) && row.metrics.Some? ==> f(p, row, u).Real?
  {
  }

  lemma FormulaNumeric()
    ensures Numeric(Formula)
  {
    forall p: Product, row: Row, u: real | row.metrics.Some? ensures Formula(p, row, u).Real? {
      assert Formula(p, row, u).Real?;
    }
  }

  /** Scoring product `p` for one row with the generator at position `k` of
      `stream`: a draw is consumed exactly when the formula gets past its guards;
      a formula that returns early gives 0 without reading the draw. */
  function ScoreCell(f: FormulaTable, p: Product, row: Row, stream: nat -> real, k: nat): (c: Cell)
    ensures ReturnsEarly(p, row) ==> c == Cell(Real(0.0), k)
    ensures !ReturnsEarly(p, row) ==> c.next == k + 1
    ensures WithinCap(c.value, p)
    ensures Numeric(f) && row.metrics.Some? ==> c.value.Real?
  {
    if ReturnsEarly(p, row) then Cell(Real(0.0), k)
    else
      var raw := f(p, row, stream(k));
      NumericAt(f, p, row, stream(k));
      Cell(Clip(raw, Cap(p)), k + 1)
  }

  /** With the service's formulas, a cell is the clipped formula at the draw it
      is given, whether or not the formula returns early. */
  lemma ScoreCellIsFormula(p: Product, row: Row, stream: nat -> real, k: nat)
    ensures ScoreCell(Formula, p, row, stream, k).value == Clip(Formula(p, row, stream(k)), Cap(p))
  {
    if ReturnsEarly(p, row) {
      assert Formula(p, row, stream(k)) == Real(0.0);
    }
  }

  datatype Scored = Scored(values: seq<Num>, next: nat)

  /** `df_merged.apply(formula, axis=1)` for one product: rows in order, each
      continuing the generator where the previous row left it. */
  function ScoreColumn(f: FormulaTable, p: Product, rows: seq<Row>, stream: nat -> real, k: nat): (r: Scored)
    ensures |r.values| == |rows| && r.next >= k
    ensures forall i :: 0 <= i < |rows| ==> WithinCap(r.values[i], p)
    ensures Numeric(f) ==> forall i :: 0 <= i < |rows| && rows[i].metrics.Some? ==> r.values[i].Real?
    decreases |rows|
  {
    if |rows| == 0 then Scored([], k)
    else
      var prev := ScoreColumn(f, p, rows[..|rows| - 1], stream, k);
      var c := ScoreCell(f, p, rows[|rows| - 1], stream, prev.next);
      assert forall i :: 0 <= i < |rows| - 1 ==> rows[..|rows| - 1][i] == rows[i];
      Scored(prev.values + [c.value], c.next)
  }

  datatype Table = Table(columns: seq<seq<Num>>, next: nat)

  /** The loop over `benefit_formulas`: product-major, each product scoring every
      row before the next product starts. */
  function ScoreTable(f: FormulaTable, ps: seq<Product>, rows: seq<Row>, stream: nat -> real, k: nat): (t: Table)
    ensures |t.columns| == |ps| && t.next >= k
    ensures forall j :: 0 <= j < |ps| ==> |t.columns[j]| == |rows|
    ensures forall j, i :: 0 <= j < |ps| && 0 <= i < |rows| ==> WithinCap(t.columns[j][i], ps[j])
    ensures Numeric(f) ==>
      forall j, i :: 0 <= j < |ps| && 0 <= i < |rows| && rows[i].metrics.Some? ==> t.columns[j][i].Real?
    decreases |ps|
  {
    if |ps| == 0 then Table([], k)
    else
      var prev := ScoreTable(f, ps[..|ps| - 1], rows, stream, k);
      var col := ScoreColumn(f, ps[|ps| - 1], rows, stream, prev.next);
      assert forall j :: 0 <= j < |ps| - 1 ==> ps[..|ps| - 1][j] == ps[j];
      Table(prev.columns + [col.values], col.next)
  }

  /** How many of `rows` get past the guards of product `p`. */
  function DrawCount(p: Product, rows: seq<Row>): nat
    decreases |rows|
  {
    if |rows| == 0 then 0
    else DrawCount(p, rows[..|rows| - 1]) + (if ReturnsEarly(p, rows[|rows| - 1]) then 0 else 1)
  }

  function TableDrawCount(ps: seq<Product>, rows: seq<Row>): nat
    decreases |ps|
  {
    if |ps| == 0 then 0 else TableDrawCount(ps[..|ps| - 1], rows) + DrawCount(ps[|ps| - 1], rows)
  }

  /** Scoring one more row extends the column by that row's cell. */
  lemma ScoreColumnSnoc(f: FormulaTable, p: Product, rows: seq<Row>, stream: nat -> real, k: nat, i: nat)
    requires i < |rows|
    ensures ScoreColumn(f, p, rows[..i + 1], stream, k)
         == Scored(ScoreColumn(f, p, rows[..i], stream, k).values
                     + [ScoreCell(f, p, rows[i], stream, ScoreColumn(f, p, rows[..i], stream, k).next).value],
                   ScoreCell(f, p, rows[i], stream, ScoreColumn(f, p, rows[..i], stream, k).next).next)
  {
    assert rows[..i + 1][..i] == rows[..i];
    assert rows[..i + 1][i] == rows[i];
  }

  /** A column consumes one draw per row that gets past the guards. */
  lemma {:induction false} ScoreColumnNext(f: FormulaTable, p: Product, rows: seq<Row>, stream: nat -> real, k: nat)
    ensures ScoreColumn(f, p, rows, stream, k).next == k + DrawCount(p, rows)
    decreases |rows|
  {
    if |rows| > 0 {
      ScoreColumnNext(f, p, rows[..|rows| - 1], stream, k);
    }
  }

  /** Row `i` of a column is scored with the draw that follows one draw per
      earlier row that got past the guards. */
  lemma {:induction false} ScoreColumnAt(f: FormulaTable, p: Product, rows: seq<Row>, stream: nat -> real, k: nat, i: nat)
    requires i < |rows|
    ensures ScoreColumn(f, p, rows, stream, k).values[i]
         == ScoreCell(f, p, rows[i], stream, k + DrawCount(p, rows[..i])).value
    decreases |rows|
  {
    var n := |rows| - 1;
    if i < n {
      ScoreColumnAt(f, p, rows[..n], stream, k, i);
      assert rows[..n][..i] == rows[..i];
      assert rows[..n][i] == rows[i];
    } else {
      ScoreColumnNext(f, p, rows[..n], stream, k);
    }
  }

  /** The whole table consumes one draw per (product, row) pair that gets past
      the guards. */
  lemma {:induction false} ScoreTableNext(f: FormulaTable, ps: seq<Product>, rows: seq<Row>, stream: nat -> real, k: nat)
    ensures ScoreTable(f, ps, rows, stream, k).next == k + TableDrawCount(ps, rows)
    decreases |ps|
  {
    if |ps| > 0 {
      var n := |ps| - 1;
      ScoreTableNext(f, ps[..n], rows, stream, k);
      ScoreColumnNext(f, ps[n], rows, stream, ScoreTable(f, ps[..n], rows, stream, k).next);
    }
  }

  /** Column j of the table is product j's column, started where the columns
      of the earlier products left the generator. */
  lemma {:induction false} ScoreTableColumn(f: FormulaTable, ps: seq<Product>, rows: seq<Row>, stream: nat -> real, k: nat, j: nat)
    requires j < |ps|
    ensures ScoreTable(f, ps, rows, stream, k).columns[j]
         == ScoreColumn(f, ps[j], rows, stream, ScoreTable(f, ps[..j], rows, stream, k).next).values
    decreases |ps|
  {
    var n := |ps| - 1;
    if j < n {
      ScoreTableColumn(f, ps[..n], rows, stream, k, j);
      assert ps[..n][..j] == ps[..j];
      assert ps[..n][j] == ps[j];
    } else {
      assert ps[..j] == ps[..n];
    }
  }

  /** The draw order of `calculate_benefits`: cell (product j, row i) is scored
      at generator position k + (draws of all earlier products) + (draws of
      earlier rows for product j). */
  lemma ScoreTableAt(f: FormulaTable, ps: seq<Product>, rows: seq<Row>, stream: nat -> real, k: nat, j: nat, i: nat)
    requires j < |ps| && i < |rows|
    ensures ScoreTable(f, ps, rows, stream, k).columns[j][i]
         == ScoreCell(f, ps[j], rows[i], stream, k + TableDrawCount(ps[..j], rows) + DrawCount(ps[j], rows[..i])).value
  {
    ScoreTableColumn(f, ps, rows, stream, k, j);
    ScoreTableNext(f, ps[..j], rows, stream, k);
    ScoreColumnAt(f, ps[j], rows, stream, ScoreTable(f, ps[..j], rows, stream, k).next, i);
  }

  /** The generator of `random.Random(42)`: an infinite stream of draws in [0, 1)
      and the position of the next one. The Mersenne Twister producing the
      stream is not part of this model. */
  class Random {
    const stream: nat -> real
    var cursor: nat

    ghost predicate Valid() {
      forall i: nat :: 0.0 <= stream(i) < 1.0
    }

    constructor (stream: nat -> real)
      requires forall i: nat :: 0.0 <= stream(i) < 1.0
      ensures this.stream == stream && cursor == 0 && Valid()
    {
      this.stream := stream;
      cursor := 0;
    }

    /** `random()`. */
    method Next() returns (u: real)
      requires Valid()
      modifies this
      ensures u == stream(old(cursor)) && cursor == old(cursor) + 1
      ensures 0.0 <= u < 1.0
    {
      u := stream(cursor);
      cursor := cursor + 1;
    }
  }

  /** One pass of the product loop: `df_merged.apply(formula, axis=1)` and the
      two clips, row by row, drawing from the generator as the formula asks. */
  method ScoreProduct(p: Product, rows: seq<Row>, rng: Random) returns (column: seq<Num>)
    requires rng.Valid()
    modifies rng
    ensures Scored(column, rng.cursor) == ScoreColumn(Formula, p, rows, rng.stream, old(rng.cursor))
  {
    ghost var start := rng.cursor;
    column := [];
    for i := 0 to |rows|
      invariant rng.Valid()
      invariant ScoreColumn(Formula, p, rows[..i], rng.stream, start) == Scored(column, rng.cursor)
    {
      ghost var before := rng.cursor;
      var raw: Num;
      if ReturnsEarly(p, rows[i]) {
        raw := Real(0.0);
      } else {
        var u := rng.Next();
        raw := Formula(p, rows[i], u);
      }
      assert Cell(Clip(raw, Cap(p)), rng.cursor) == ScoreCell(Formula, p, rows[i], rng.stream, before);
      ScoreColumnSnoc(Formula, p, rows, rng.stream, start, i);
      column := column + [Clip(raw, Cap(p))];
    }
    assert rows[..|rows|] == rows;
  }

  /** `calculate_benefits` up to the allocator: one benefit column per product in
      catalogue order, each as long as the feature table, every value clipped into
      [0, cap] or NaN, and the generator advanced past every draw taken. */
  method CalculateBenefits(rows: seq<Row>, rng: Random) returns (benefits: seq<seq<Num>>)
    requires rng.Valid()
    modifies rng
    ensures benefits == ScoreTable(Formula, Products, rows, rng.stream, old(rng.cursor)).columns
    ensures rng.cursor == ScoreTable(Formula, Products, rows, rng.stream, old(rng.cursor)).next
    ensures |benefits| == |Products|
    ensures forall j :: 0 <= j < |Products| ==> |benefits[j]| == |rows|
    ensures forall j, i :: 0 <= j < |Products| && 0 <= i < |rows| ==> WithinCap(benefits[j][i], Products[j])
  {
    ghost var start := rng.cursor;
    benefits := [];
    for j := 0 to |Products|
      invariant rng.Valid()
      invariant ScoreTable(Formula, Products[..j], rows, rng.stream, start) == Table(benefits, rng.cursor)
    {
      var column := ScoreProduct(Products[j], rows, rng);
      assert Products[..j + 1][..j] == Products[..j];
      benefits := benefits + [column];
    }
    assert Products[..|Products|] == Products;
  }
}
