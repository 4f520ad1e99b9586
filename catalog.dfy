/** The fixed product catalogue of BankingMLService: the ten products in the
    iteration order of `benefit_formulas`, their benefit caps, the four product
    groups of the diversity allocator and its target shares. */
module Catalog {

  /** The ten products. Source labels: Депозит Сберегательный (SavingsDeposit),
      Кредит наличными (CashLoan), Карта для путешествий (TravelCard),
      Кредитная карта (CreditCard), Премиальная карта (PremiumCard),
      Мультивалютный счет (FxAccount), Депозит Накопительный (AccumulativeDeposit),
      Депозит Мультивалютный (MultiCurrencyDeposit), Инвестиции (Investments),
      Золотые слитки (GoldBars). */
  datatype Product =
    | SavingsDeposit | CashLoan | TravelCard | CreditCard | PremiumCard
    | FxAccount | AccumulativeDeposit | MultiCurrencyDeposit | Investments | GoldBars

  /** Dictionary order of `benefit_formulas`, which is also the order of the
      `benefit_*` columns. */
  const Products: seq<Product> := [
    SavingsDeposit, CashLoan, TravelCard, CreditCard, PremiumCard,
    FxAccount, AccumulativeDeposit, MultiCurrencyDeposit, Investments, GoldBars
  ]

  /** The column of a product in the benefit table. */
  function Index(p: Product): (i: nat)
    ensures i < |Products| && Products[i] == p
    ensures forall j :: 0 <= j < |Products| && Products[j] == p ==> j == i
  {
    match p
    case SavingsDeposit => 0
    case CashLoan => 1
    case TravelCard => 2
    case CreditCard => 3
    case PremiumCard => 4
    case FxAccount => 5
    case AccumulativeDeposit => 6
    case MultiCurrencyDeposit => 7
    case Investments => 8
    case GoldBars => 9
  }

  /** `benefit_caps`: the largest monthly benefit a product may be credited with. */
  function Cap(p: Product): (c: real)
    ensures 50000.0 <= c <= 200000.0
  {
    match p
    case SavingsDeposit => 100000.0
    case CashLoan => 200000.0
    case TravelCard => 50000.0
    case CreditCard => 100000.0
    case PremiumCard => 100000.0
    case FxAccount => 80000.0
    case AccumulativeDeposit => 90000.0
    case MultiCurrencyDeposit => 80000.0
    case Investments => 150000.0
    case GoldBars => 100000.0
  }

  /** The keys of `product_groups` (deposits, cards, investments, other). */
  datatype Group = DepositGroup | CardGroup | InvestmentGroup | OtherGroup

  /** Dictionary order of `product_groups`. */
  const GroupOrder: seq<Group> := [DepositGroup, CardGroup, InvestmentGroup, OtherGroup]

  /** The position of a group in `GroupOrder`. */
  function GroupIndex(g: Group): (n: nat)
    ensures n < |GroupOrder| && GroupOrder[n] == g
    ensures forall m :: 0 <= m < |GroupOrder| && GroupOrder[m] == g ==> m == n
  {
    match g
    case DepositGroup => 0
    case CardGroup => 1
    case InvestmentGroup => 2
    case OtherGroup => 3
  }

  /** `product_groups[g]`, in the source's order. */
  function Members(g: Group): seq<Product> {
    match g
    case DepositGroup => [SavingsDeposit, AccumulativeDeposit, MultiCurrencyDeposit]
    case CardGroup => [CreditCard, PremiumCard, TravelCard]
    case InvestmentGroup => [Investments, GoldBars]
    case OtherGroup => [CashLoan, FxAccount]
  }

  /** The group a product belongs to: the first group, in dictionary order,
      whose member list holds it. The groups partition the catalogue. */
  function GroupOf(p: Product): (g: Group)
    ensures p in Members(g)
    ensures forall h: Group :: p in Members(h) ==> h == g
  {
    match p
    case SavingsDeposit => DepositGroup
    case AccumulativeDeposit => DepositGroup
    case MultiCurrencyDeposit => DepositGroup
    case CreditCard => CardGroup
    case PremiumCard => CardGroup
    case TravelCard => CardGroup
    case Investments => InvestmentGroup
    case GoldBars => InvestmentGroup
    case CashLoan => OtherGroup
    case FxAccount => OtherGroup
  }

  /** `target_distribution`, in percent. */
  function TargetPercent(g: Group): (pct: nat)
    ensures pct <= 100
  {
    match g
    case DepositGroup => 30
    case CardGroup => 40
    case InvestmentGroup => 20
    case OtherGroup => 10
  }

  /** `int(total_clients * percentage)`: the share is truncated, not rounded. */
  function Target(g: Group, total: nat): (t: nat)
    ensures t * 100 <= total * TargetPercent(g) < (t + 1) * 100
    ensures t <= total
  {
    total * TargetPercent(g) / 100
  }
}
