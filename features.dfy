/** `BankingMLService.process_data`: the per-client feature table built from the
    clients, transactions and transfers tables.

    pandas' group-by sums are folds over the record sequences into maps
    (client -> category -> total). The pivot table has one row per client that
    has at least one transaction and one column per category seen anywhere in
    the transactions table; `fillna(0)` fills the cells of absent
    (client, category) pairs and absent transfer sums. The fill runs before the
    left merge with the clients table, so a client without transactions keeps
    missing (NaN) metrics: its `metrics` are `None` here. Its transfers are
    dropped with it, because the metric rows start from the transaction pivot. */
module Features {
  import opened Common
  import opened Sorting

  type ClientId = int

  /** The columns of the clients table that the core reads. */
  datatype Client = Client(code: ClientId, status: string, age: int, balance: real)

  /** A transaction record; `currency` and `product` may be missing. */
  datatype Transaction = Transaction(
    client: ClientId, category: string, amount: real, currency: Option<string>, product: Option<string>)

  /** A transfer record; `kind` is the optional `type` column. */
  datatype Transfer = Transfer(client: ClientId, direction: string, amount: real, kind: Option<string>)

  /** A `<category>_m` column of the pivot and the client's value in it. */
  datatype Column = Column(name: string, rate: real)

  /** The numeric part of a feature row; all of it is present or all of it is NaN. */
  datatype Metrics = Metrics(
    columns: seq<Column>,
    travel: real, online: real, top3: real,
    inflows: real, outflows: real, total: real)

  /** One row of the merged table: the client, its metrics, and the three flags. */
  datatype Row = Row(client: Client, metrics: Option<Metrics>, hasFx: bool, hasCc: bool, hasAtmP2p: bool)

  /** The number of months in the snapshot; every run-rate divides by it. */
  const Window: real := 3.0

  const BaseCurrency: string := "KZT"
  const CreditMarker: string := "Кредит"
  const TravelMarkers: seq<string> := ["Такси", "Путешествия", "Отели"]
  const OnlineMarkers: seq<string> := ["Играем дома", "Смотрим дома", "Едим дома"]

  ghost predicate Distinct<T>(s: seq<T>) {
    forall i, j :: 0 <= i < j < |s| ==> s[i] != s[j]
  }

  predicate HasTransactions(txs: seq<Transaction>, c: ClientId) {
    exists i :: 0 <= i < |txs| && txs[i].client == c
  }

  // ---------------------------------------------------------------------------
  // Group-by sums

  /** The pivot's columns: every category in the table, once, in order of first appearance. */
  function Categories(txs: seq<Transaction>): (cats: seq<string>)
    ensures Distinct(cats)
    ensures forall cat :: cat in cats <==> exists i :: 0 <= i < |txs| && txs[i].category == cat
    decreases |txs|
  {
    if |txs| == 0 then []
    else
      var prev := Categories(txs[..|txs| - 1]);
      var cat := txs[|txs| - 1].category;
      assert forall i :: 0 <= i < |txs| - 1 ==> txs[..|txs| - 1][i] == txs[i];
      if cat in prev then prev else prev + [cat]
  }

  /** `transactions_df.groupby(['client_code', 'category'])['amount'].sum()`. */
  function SpendTable(txs: seq<Transaction>): (m: map<ClientId, map<string, real>>)
    ensures forall c :: c in m <==> HasTransactions(txs, c)
    decreases |txs|
  {
    if |txs| == 0 then map[]
    else
      var m := SpendTable(txs[..|txs| - 1]);
      var t := txs[|txs| - 1];
      var row := if t.client in m then m[t.client] else map[];
      var cur := if t.category in row then row[t.category] else 0.0;
      assert forall i :: 0 <= i < |txs| - 1 ==> txs[..|txs| - 1][i] == txs[i];
      m[t.client := row[t.category := cur + t.amount]]
  }

  /** A pivot cell after `fillna(0)`. */
  function PivotCell(m: map<ClientId, map<string, real>>, c: ClientId, cat: string): real {
    if c in m && cat in m[c] then m[c][cat] else 0.0
  }

  /** Reference: the sum of the client's amounts in one category. */
  function CategorySpend(txs: seq<Transaction>, c: ClientId, cat: string): real
    decreases |txs|
  {
    if |txs| == 0 then 0.0
    else
      var t := txs[|txs| - 1];
      CategorySpend(txs[..|txs| - 1], c, cat) + (if t.client == c && t.category == cat then t.amount else 0.0)
  }

  /** Reference: the sum of all the client's amounts. */
  function ClientSpend(txs: seq<Transaction>, c: ClientId): real
    decreases |txs|
  {
    if |txs| == 0 then 0.0
    else
      var t := txs[|txs| - 1];
      ClientSpend(txs[..|txs| - 1], c) + (if t.client == c then t.amount else 0.0)
  }

  /** `transfers_df.groupby(['client_code', 'direction'])['amount'].sum()` for one
      client and direction, 0 where the group is absent (the later `fillna(0)`). */
  function TransferSum(trs: seq<Transfer>, c: ClientId, direction: string): real
    decreases |trs|
  {
    if |trs| == 0 then 0.0
    else
      var t := trs[|trs| - 1];
      TransferSum(trs[..|trs| - 1], c, direction)
        + (if t.client == c && t.direction == direction then t.amount else 0.0)
  }

  // ---------------------------------------------------------------------------
  // Monthly metrics

  /** The client's pivot row divided by the window, columns renamed to `<category>_m`. */
  function RunRates(cats: seq<string>, m: map<ClientId, map<string, real>>, c: ClientId): (cols: seq<Column>)
    ensures |cols| == |cats|
    decreases |cats|
  {
    if |cats| == 0 then []
    else [Column(cats[0] + "_m", PivotCell(m, c, cats[0]) / Window)] + RunRates(cats[1..], m, c)
  }

  function Rates(cols: seq<Column>): (rs: seq<real>)
    ensures |rs| == |cols|
    decreases |cols|
  {
    if |cols| == 0 then [] else [cols[0].rate] + Rates(cols[1..])
  }

  predicate MatchesAny(name: string, markers: seq<string>) {
    exists k :: 0 <= k < |markers| && Contains(name, markers[k])
  }

  /** `df[[col for col in columns if marker in col ...]].sum(axis=1)`. With
      non-negative run-rates the composite lies between 0 and their sum. */
  function MarkedSum(cols: seq<Column>, markers: seq<string>): (r: real)
    ensures (forall k :: 0 <= k < |cols| ==> cols[k].rate >= 0.0) ==> 0.0 <= r <= SumOf(Rates(cols))
    decreases |cols|
  {
    if |cols| == 0 then 0.0
    else
      SumOfCons(cols[0].rate, Rates(cols[1..]));
      assert forall k :: 0 <= k < |cols[1..]| ==> cols[1..][k] == cols[k + 1];
      (if MatchesAny(cols[0].name, markers) then cols[0].rate else 0.0) + MarkedSum(cols[1..], markers)
  }

  function Id(x: real): real { x }

  /** `row.nlargest(3).sum()`: the sum of the first three values in descending
      order. With non-negative values it lies between 0 and the sum of the row;
      a row of at most three values is summed whole. */
  function Top3Sum(rs: seq<real>): (t: real)
    ensures (forall k :: 0 <= k < |rs| ==> rs[k] >= 0.0) ==> 0.0 <= t <= SumOf(rs)
    ensures |rs| <= 3 ==> t == SumOf(rs)
  {
    var sorted := SortDesc(rs, Id);
    var n := if |sorted| < 3 then |sorted| else 3;
    SortDescSum(rs, Id);
    SortedPrefixBound(rs, n);
    assert sorted[..|sorted|] == sorted;
    SumOf(sorted[..n])
  }

  lemma SortedPrefixBound(rs: seq<real>, n: nat)
    requires n <= |rs|
    ensures (forall k :: 0 <= k < |rs| ==> rs[k] >= 0.0) ==>
      0.0 <= SumOf(SortDesc(rs, Id)[..n]) <= SumOf(SortDesc(rs, Id))
  {
    if forall k :: 0 <= k < |rs| ==> rs[k] >= 0.0 {
      var sorted := SortDesc(rs, Id);
      forall k | 0 <= k < |sorted| ensures sorted[k] >= 0.0 {
        SortDescMember(rs, Id, k);
      }
      SumOfPrefixBound(sorted, n);
      SumOfNonNegative(sorted[..n]);
    }
  }

  /** The metric row of a client that has transactions. TOP3_m is taken over the
      category columns only, so TRAVEL_m and ONLINE_m never feed into it.
      TOTAL_m is the group-by transform sum of the client's category totals,
      which is the sum of all of the client's amounts. */
  function MetricsOf(txs: seq<Transaction>, trs: seq<Transfer>, c: ClientId): (m: Metrics)
    ensures |m.columns| == |Categories(txs)|
    ensures m.total == SumOf(Rates(m.columns))
  {
    var cats := Categories(txs);
    var cols := RunRates(cats, SpendTable(txs), c);
    RatesSum(txs, c, cats);
    SpendAcrossIsClientSpend(txs, c, cats);
    Metrics(
      cols,
      travel := MarkedSum(cols, TravelMarkers),
      online := MarkedSum(cols, OnlineMarkers),
      top3 := Top3Sum(Rates(cols)),
      inflows := TransferSum(trs, c, "in") / Window,
      outflows := TransferSum(trs, c, "out") / Window,
      total := ClientSpend(txs, c) / Window)
  }

  // ---------------------------------------------------------------------------
  // Flags

  function ProductLabel(t: Transaction): string {
    match t.product case Some(p) => p case None => ""
  }

  function KindLabel(t: Transfer): string {
    match t.kind case Some(k) => k case None => ""
  }

  /** `str.contains('atm|p2p')`. */
  predicate AtmOrP2p(t: Transfer) {
    Contains(KindLabel(t), "atm") || Contains(KindLabel(t), "p2p")
  }

  /** The `.unique()` client codes with a transaction whose currency is not
      KZT; a missing currency is not KZT either. */
  function FxClients(txs: seq<Transaction>): (r: set<ClientId>)
    ensures forall c :: c in r <==> exists i :: 0 <= i < |txs| && txs[i].client == c && txs[i].currency != Some("KZT")
  {
    set i | 0 <= i < |txs| && txs[i].currency != Some(BaseCurrency) :: txs[i].client
  }

  /** The client codes with a transaction whose product tag contains "Кредит";
      a missing tag counts as the empty string. */
  function CcClients(txs: seq<Transaction>): (r: set<ClientId>)
    ensures forall c :: c in r <==>
      exists i :: 0 <= i < |txs| && txs[i].client == c && txs[i].product.Some? && Contains(txs[i].product.value, "Кредит")
  {
    set i | 0 <= i < |txs| && Contains(ProductLabel(txs[i]), CreditMarker) :: txs[i].client
  }

  /** The client codes with a transfer whose type contains "atm" or "p2p"; a
      missing type counts as the empty string. */
  function AtmP2pClients(trs: seq<Transfer>): (r: set<ClientId>)
    ensures forall c :: c in r <==>
      exists j :: 0 <= j < |trs| && trs[j].client == c && trs[j].kind.Some?
                  && (Contains(trs[j].kind.value, "atm") || Contains(trs[j].kind.value, "p2p"))
  {
    set j | 0 <= j < |trs| && AtmOrP2p(trs[j]) :: trs[j].client
  }

  /** The merged row of one client (the left merges keep every client). */
  function RowOf(cl: Client, txs: seq<Transaction>, trs: seq<Transfer>): (r: Row)
    ensures r.client == cl
    ensures r.metrics.Some? <==> HasTransactions(txs, cl.code)
    ensures r.metrics.Some? ==> r.metrics.value == MetricsOf(txs, trs, cl.code)
    ensures r.hasFx <==> exists i :: 0 <= i < |txs| && txs[i].client == cl.code && txs[i].currency != Some("KZT")
    ensures r.hasCc <==>
      exists i :: 0 <= i < |txs| && txs[i].client == cl.code && Contains(ProductLabel(txs[i]), "Кредит")
    ensures r.hasAtmP2p <==> exists j :: 0 <= j < |trs| && trs[j].client == cl.code && AtmOrP2p(trs[j])
  {
    var metrics := if cl.code in SpendTable(txs) then Some(MetricsOf(txs, trs, cl.code)) else None;
    Row(cl, metrics, cl.code in FxClients(txs), cl.code in CcClients(txs), cl.code in AtmP2pClients(trs))
  }

  /** `process_data`: one row per row of the clients table, in its order. */
  function ProcessData(clients: seq<Client>, txs: seq<Transaction>, trs: seq<Transfer>): (rows: seq<Row>)
    ensures |rows| == |clients|
    ensures forall i :: 0 <= i < |clients| ==> rows[i] == RowOf(clients[i], txs, trs)
  {
    seq(|clients|, i requires 0 <= i < |clients| => RowOf(clients[i], txs, trs))
  }

  // ---------------------------------------------------------------------------
  // Properties

  lemma {:induction false} SpendTableCell(txs: seq<Transaction>, c: ClientId, cat: string)
    ensures PivotCell(SpendTable(txs), c, cat) == CategorySpend(txs, c, cat)
    decreases |txs|
  {
    if |txs| > 0 {
      SpendTableCell(txs[..|txs| - 1], c, cat);
    }
  }

  lemma {:induction false} RunRatesAt(cats: seq<string>, m: map<ClientId, map<string, real>>, c: ClientId, k: nat)
    requires k < |cats|
    ensures RunRates(cats, m, c)[k] == Column(cats[k] + "_m", PivotCell(m, c, cats[k]) / Window)
    ensures Rates(RunRates(cats, m, c))[k] == PivotCell(m, c, cats[k]) / Window
    decreases k
  {
    if k > 0 {
      RunRatesAt(cats[1..], m, c, k - 1);
    }
  }

  /** Each category run-rate is the client's summed amount in that category over three. */
  lemma RunRateIsCategorySpend(txs: seq<Transaction>, trs: seq<Transfer>, c: ClientId, k: nat)
    requires k < |Categories(txs)|
    ensures |MetricsOf(txs, trs, c).columns| == |Categories(txs)|
    ensures MetricsOf(txs, trs, c).columns[k].name == Categories(txs)[k] + "_m"
    ensures MetricsOf(txs, trs, c).columns[k].rate == CategorySpend(txs, c, Categories(txs)[k]) / 3.0
  {
    RunRatesAt(Categories(txs), SpendTable(txs), c, k);
    SpendTableCell(txs, c, Categories(txs)[k]);
  }

  /** The sum over a list of categories of the client's spend in each. */
  function SpendAcross(txs: seq<Transaction>, c: ClientId, cats: seq<string>): real
    decreases |cats|
  {
    if |cats| == 0 then 0.0 else CategorySpend(txs, c, cats[0]) + SpendAcross(txs, c, cats[1..])
  }

  lemma {:induction false} RatesSum(txs: seq<Transaction>, c: ClientId, cats: seq<string>)
    ensures SumOf(Rates(RunRates(cats, SpendTable(txs), c))) == SpendAcross(txs, c, cats) / Window
    decreases |cats|
  {
    if |cats| > 0 {
      RatesSum(txs, c, cats[1..]);
      SpendTableCell(txs, c, cats[0]);
      SumOfCons(PivotCell(SpendTable(txs), c, cats[0]) / Window, Rates(RunRates(cats[1..], SpendTable(txs), c)));
    }
  }

  lemma {:induction false} SpendAcrossEmpty(c: ClientId, cats: seq<string>)
    ensures SpendAcross([], c, cats) == 0.0
    decreases |cats|
  {
    if |cats| > 0 {
      SpendAcrossEmpty(c, cats[1..]);
    }
  }

  lemma {:induction false} SpendAcrossStep(txs: seq<Transaction>, t: Transaction, c: ClientId, cats: seq<string>)
    requires Distinct(cats)
    ensures SpendAcross(txs + [t], c, cats)
         == SpendAcross(txs, c, cats) + (if t.client == c && t.category in cats then t.amount else 0.0)
    decreases |cats|
  {
    assert (txs + [t])[..|txs|] == txs;
    if |cats| > 0 {
      assert cats[0] !in cats[1..] by {
        forall k | 0 <= k < |cats[1..]| ensures cats[1..][k] != cats[0] {
          assert cats[1..][k] == cats[k + 1];
        }
      }
      assert Distinct(cats[1..]) by {
        forall i, j | 0 <= i < j < |cats[1..]| ensures cats[1..][i] != cats[1..][j] {
          assert cats[1..][i] == cats[i + 1] && cats[1..][j] == cats[j + 1];
        }
      }
      SpendAcrossStep(txs, t, c, cats[1..]);
      assert t.category in cats <==> t.category == cats[0] || t.category in cats[1..] by {
        assert cats == [cats[0]] + cats[1..];
      }
    }
  }

  /** Summing the category totals over every category gives the client's whole spend. */
  lemma {:induction false} SpendAcrossIsClientSpend(txs: seq<Transaction>, c: ClientId, cats: seq<string>)
    requires Distinct(cats)
    requires forall i :: 0 <= i < |txs| ==> txs[i].category in cats
    ensures SpendAcross(txs, c, cats) == ClientSpend(txs, c)
    decreases |txs|
  {
    if |txs| == 0 {
      SpendAcrossEmpty(c, cats);
    } else {
      var p := txs[..|txs| - 1];
      assert txs == p + [txs[|txs| - 1]];
      SpendAcrossIsClientSpend(p, c, cats);
      SpendAcrossStep(p, txs[|txs| - 1], c, cats);
    }
  }

  predicate NonNegativeAmounts(txs: seq<Transaction>) {
    forall i :: 0 <= i < |txs| ==> txs[i].amount >= 0.0
  }

  lemma {:induction false} CategorySpendNonNegative(txs: seq<Transaction>, c: ClientId, cat: string)
    requires NonNegativeAmounts(txs)
    ensures CategorySpend(txs, c, cat) >= 0.0
    decreases |txs|
  {
    if |txs| > 0 {
      CategorySpendNonNegative(txs[..|txs| - 1], c, cat);
    }
  }

  lemma RatesNonNegative(txs: seq<Transaction>, trs: seq<Transfer>, c: ClientId)
    requires NonNegativeAmounts(txs)
    ensures forall k :: 0 <= k < |Rates(MetricsOf(txs, trs, c).columns)| ==>
      Rates(MetricsOf(txs, trs, c).columns)[k] >= 0.0
  {
    var cats := Categories(txs);
    forall k | 0 <= k < |Rates(MetricsOf(txs, trs, c).columns)|
      ensures Rates(MetricsOf(txs, trs, c).columns)[k] >= 0.0
    {
      RunRatesAt(cats, SpendTable(txs), c, k);
      SpendTableCell(txs, c, cats[k]);
      CategorySpendNonNegative(txs, c, cats[k]);
    }
  }

  /** With non-negative amounts, TOP3_m lies between 0 and TOTAL_m. */
  lemma Top3AtMostTotal(txs: seq<Transaction>, trs: seq<Transfer>, c: ClientId)
    requires NonNegativeAmounts(txs)
    ensures 0.0 <= MetricsOf(txs, trs, c).top3 <= MetricsOf(txs, trs, c).total
  {
    RatesNonNegative(txs, trs, c);
  }

  /** The first three values of the descending order are the three largest:
      none of the others exceeds any of them. */
  lemma Top3AreLargest(rs: seq<real>, i: nat, j: nat)
    requires i < 3 && i < j < |rs|
    ensures SortDesc(rs, Id)[j] <= SortDesc(rs, Id)[i]
    ensures multiset(SortDesc(rs, Id)) == multiset(rs)
  {
    SortDescFacts(rs, Id);
  }

  /** TOP3_m is the sum of up to three values taken from the row, and every
      value of the row left out is at most every value taken. */
  lemma Top3IsSumOfLargest(rs: seq<real>)
    ensures var n := if |rs| < 3 then |rs| else 3;
      var top := SortDesc(rs, Id)[..n];
      && Top3Sum(rs) == SumOf(top)
      && multiset(top) <= multiset(rs)
      && forall x, y :: x in multiset(rs) - multiset(top) && y in top ==> x <= y
  {
    var n := if |rs| < 3 then |rs| else 3;
    var top := SortDesc(rs, Id)[..n];
    var rest := SortDesc(rs, Id)[n..];
    Top3Split(rs, n);
    Top3RestBelow(rs, n);
    assert Top3Sum(rs) == SumOf(top);
    forall x, y | x in multiset(rs) - multiset(top) && y in top
      ensures x <= y
    {
      assert x in rest;
    }
  }

  lemma Top3Split(rs: seq<real>, n: nat)
    requires n <= |rs|
    ensures multiset(SortDesc(rs, Id)[..n]) <= multiset(rs)
    ensures multiset(rs) - multiset(SortDesc(rs, Id)[..n]) == multiset(SortDesc(rs, Id)[n..])
  {
    var sorted := SortDesc(rs, Id);
    SortDescFacts(rs, Id);
    assert sorted == sorted[..n] + sorted[n..];
  }

  lemma Top3RestBelow(rs: seq<real>, n: nat)
    requires n <= 3 && n <= |rs|
    ensures forall x, y :: x in SortDesc(rs, Id)[n..] && y in SortDesc(rs, Id)[..n] ==> x <= y
  {
    var sorted := SortDesc(rs, Id);
    forall x, y | x in sorted[n..] && y in sorted[..n]
      ensures x <= y
    {
      var j :| 0 <= j < |sorted| - n && sorted[n..][j] == x;
      var i :| 0 <= i < n && sorted[..n][i] == y;
      Top3AreLargest(rs, i, n + j);
    }
  }

  lemma RatesAt(cols: seq<Column>, k: nat)
    requires k < |cols|
    ensures Rates(cols)[k] == cols[k].rate
    decreases k
  {
    if k > 0 {
      RatesAt(cols[1..], k - 1);
    }
  }

  /** With non-negative amounts, TRAVEL_m and ONLINE_m lie between 0 and TOTAL_m. */
  lemma CompositesAtMostTotal(txs: seq<Transaction>, trs: seq<Transfer>, c: ClientId)
    requires NonNegativeAmounts(txs)
    ensures 0.0 <= MetricsOf(txs, trs, c).travel <= MetricsOf(txs, trs, c).total
    ensures 0.0 <= MetricsOf(txs, trs, c).online <= MetricsOf(txs, trs, c).total
  {
    var cols := MetricsOf(txs, trs, c).columns;
    RatesNonNegative(txs, trs, c);
    forall k | 0 <= k < |cols| ensures cols[k].rate >= 0.0 {
      RatesAt(cols, k);
    }
  }

  /** Reference for a composite: the client's spend, over three, in the
      categories whose `_m` column name carries one of the markers. */
  function MarkedSpend(txs: seq<Transaction>, c: ClientId, cats: seq<string>, markers: seq<string>): real
    decreases |cats|
  {
    if |cats| == 0 then 0.0
    else
      (if MatchesAny(cats[0] + "_m", markers) then CategorySpend(txs, c, cats[0]) / Window else 0.0)
        + MarkedSpend(txs, c, cats[1..], markers)
  }

  lemma {:induction false} MarkedSumIsMarkedSpend(txs: seq<Transaction>, c: ClientId, cats: seq<string>, markers: seq<string>)
    ensures MarkedSum(RunRates(cats, SpendTable(txs), c), markers) == MarkedSpend(txs, c, cats, markers)
    decreases |cats|
  {
    if |cats| > 0 {
      MarkedSumIsMarkedSpend(txs, c, cats[1..], markers);
      SpendTableCell(txs, c, cats[0]);
      var cols := RunRates(cats, SpendTable(txs), c);
      assert cols[1..] == RunRates(cats[1..], SpendTable(txs), c);
    }
  }

  /** TRAVEL_m and ONLINE_m are the client's spend, over three, in the
      categories whose column names carry a travel marker or an online marker. */
  lemma CompositesAreMarkedSpend(txs: seq<Transaction>, trs: seq<Transfer>, c: ClientId)
    ensures MetricsOf(txs, trs, c).travel == MarkedSpend(txs, c, Categories(txs), TravelMarkers)
    ensures MetricsOf(txs, trs, c).online == MarkedSpend(txs, c, Categories(txs), OnlineMarkers)
  {
    MarkedSumIsMarkedSpend(txs, c, Categories(txs), TravelMarkers);
    MarkedSumIsMarkedSpend(txs, c, Categories(txs), OnlineMarkers);
  }

  /** The transfer group-by sum does not depend on how the table is split: the
      sum over a table is the sum over its two parts. */
  lemma {:induction false} TransferSumAppend(a: seq<Transfer>, b: seq<Transfer>, c: ClientId, direction: string)
    ensures TransferSum(a + b, c, direction) == TransferSum(a, c, direction) + TransferSum(b, c, direction)
    decreases |b|
  {
    if |b| == 0 {
      assert a + b == a;
    } else {
      assert (a + b)[..|a + b| - 1] == a + b[..|b| - 1];
      TransferSumAppend(a, b[..|b| - 1], c, direction);
    }
  }

  /** Reference for a transfer group: the amounts of the client's transfers in
      one direction, in table order. */
  function MatchingAmounts(trs: seq<Transfer>, c: ClientId, direction: string): seq<real>
    decreases |trs|
  {
    if |trs| == 0 then []
    else
      (if trs[0].client == c && trs[0].direction == direction then [trs[0].amount] else [])
        + MatchingAmounts(trs[1..], c, direction)
  }

  lemma {:induction false} TransferSumIsMatching(trs: seq<Transfer>, c: ClientId, direction: string)
    ensures TransferSum(trs, c, direction) == SumOf(MatchingAmounts(trs, c, direction))
    decreases |trs|
  {
    if |trs| > 0 {
      var head := if trs[0].client == c && trs[0].direction == direction then [trs[0].amount] else [];
      TransferSumIsMatching(trs[1..], c, direction);
      assert trs == [trs[0]] + trs[1..];
      TransferSumAppend([trs[0]], trs[1..], c, direction);
      assert [trs[0]][..0] == [];
      SumOfAppend(head, MatchingAmounts(trs[1..], c, direction));
      assert SumOf(head) == (if head == [] then 0.0 else trs[0].amount) by {
        if head != [] {
          assert head[..0] == [];
        }
      }
    }
  }

  /** INFLOWS_m and OUTFLOWS_m are the sums of the client's incoming and
      outgoing transfer amounts, over three. */
  lemma FlowsAreTransferSums(txs: seq<Transaction>, trs: seq<Transfer>, c: ClientId)
    ensures MetricsOf(txs, trs, c).inflows == SumOf(MatchingAmounts(trs, c, "in")) / 3.0
    ensures MetricsOf(txs, trs, c).outflows == SumOf(MatchingAmounts(trs, c, "out")) / 3.0
  {
    TransferSumIsMatching(trs, c, "in");
    TransferSumIsMatching(trs, c, "out");
  }

  lemma {:induction false} TransferSumAbsent(trs: seq<Transfer>, c: ClientId, direction: string)
    requires forall j :: 0 <= j < |trs| ==> trs[j].client != c || trs[j].direction != direction
    ensures TransferSum(trs, c, direction) == 0.0
    decreases |trs|
  {
    if |trs| > 0 {
      TransferSumAbsent(trs[..|trs| - 1], c, direction);
    }
  }

  /** A client with transactions but no transfers in a direction gets 0 there,
      not NaN (the `fillna(0)` on the metric table). A client without
      transactions gets no metrics at all, whatever its transfers. */
  lemma TransferZeroFill(cl: Client, txs: seq<Transaction>, trs: seq<Transfer>)
    requires forall j :: 0 <= j < |trs| ==> trs[j].client != cl.code
    ensures HasTransactions(txs, cl.code) ==>
      RowOf(cl, txs, trs).metrics == Some(MetricsOf(txs, trs, cl.code))
      && MetricsOf(txs, trs, cl.code).inflows == 0.0
      && MetricsOf(txs, trs, cl.code).outflows == 0.0
    ensures !HasTransactions(txs, cl.code) ==> RowOf(cl, txs, trs).metrics == None
  {
    TransferSumAbsent(trs, cl.code, "in");
    TransferSumAbsent(trs, cl.code, "out");
  }
}
