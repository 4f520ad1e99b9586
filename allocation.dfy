/** `BankingMLService._apply_global_diversity`: the allocator that turns the
    benefit table into each client's recommendation list.

    It collects every positive benefit cell as an entry, sorts the entries by
    benefit (descending, stable), seeds each product group with its best entry
    whose client is still free, fills the groups up to their target counts in
    benefit order, and finally gives every assigned client its one assigned
    product and every other client its positive products in descending benefit
    order, at most four. The benefit table is column-major:
    `benefits[j][i]` is product `Products[j]` for row `i`, whose client code is
    `clients[i]`. */
module Allocation {
  import opened Common
  import opened Sorting
  import opened Catalog
  import opened Features

  // ---------------------------------------------------------------- entries

  /** A benefit table with one column per product and one cell per row. */
  predicate Shaped(benefits: seq<seq<Num>>, n: nat) {
    |benefits| == |Products| && forall j :: 0 <= j < |benefits| ==> |benefits[j]| == n
  }

  /** `benefit > 0` on cell (j, i); false for NaN and outside the table. */
  predicate PositiveAt(benefits: seq<seq<Num>>, j: nat, i: nat) {
    j < |benefits| && i < |benefits[j]| && benefits[j][i].Positive()
  }

  /** An element `(product, benefit, client_code)` of `all_products`. */
  datatype Entry = Entry(product: Product, benefit: real, client: ClientId)

  function EntryBenefit(e: Entry): real { e.benefit }

  /** `e` is the entry of the positive cell (j, i). */
  predicate FromCell(e: Entry, clients: seq<ClientId>, benefits: seq<seq<Num>>, i: nat, j: nat) {
    i < |clients| && j < |Products| && PositiveAt(benefits, j, i)
    && e == Entry(Products[j], benefits[j][i].v, clients[i])
  }

  /** `e` is the entry of some positive cell of the table. */
  ghost predicate InTable(e: Entry, clients: seq<ClientId>, benefits: seq<seq<Num>>) {
    exists i: nat, j: nat :: FromCell(e, clients, benefits, i, j)
  }

  /** Every entry of `s` comes from a positive cell of the table. */
  ghost predicate FromTable(s: seq<Entry>, clients: seq<ClientId>, benefits: seq<seq<Num>>) {
    forall k :: 0 <= k < |s| ==> InTable(s[k], clients, benefits)
  }

  /** The entry of cell (j, i), if its benefit is positive. */
  function EntryAt(client: ClientId, benefits: seq<seq<Num>>, i: nat, j: nat): seq<Entry>
    requires j < |Products|
  {
    if PositiveAt(benefits, j, i) then [Entry(Products[j], benefits[j][i].v, client)] else []
  }

  /** The entries of row `i` for the first `n` products, in catalogue order. */
  function RowEntries(client: ClientId, benefits: seq<seq<Num>>, i: nat, n: nat): seq<Entry>
    requires n <= |Products|
  {
    if n == 0 then [] else RowEntries(client, benefits, i, n - 1) + EntryAt(client, benefits, i, n - 1)
  }

  /** `all_products` before sorting, for the first `m` rows: row by row, and
      within a row in column order. */
  function Entries(clients: seq<ClientId>, benefits: seq<seq<Num>>, m: nat): seq<Entry>
    requires m <= |clients|
  {
    if m == 0 then [] else Entries(clients, benefits, m - 1) + RowEntries(clients[m - 1], benefits, m - 1, |Products|)
  }

  lemma {:induction false} RowEntriesMember(client: ClientId, benefits: seq<seq<Num>>, i: nat, n: nat, e: Entry)
    requires n <= |Products|
    ensures e in RowEntries(client, benefits, i, n)
        <==> exists j :: 0 <= j < n && PositiveAt(benefits, j, i) && e == Entry(Products[j], benefits[j][i].v, client)
    decreases n
  {
    if n > 0 {
      RowEntriesMember(client, benefits, i, n - 1, e);
      var last := EntryAt(client, benefits, i, n - 1);
      assert RowEntries(client, benefits, i, n) == RowEntries(client, benefits, i, n - 1) + last;
      if e in last {
        assert PositiveAt(benefits, n - 1, i) && e == Entry(Products[n - 1], benefits[n - 1][i].v, client);
      }
      if exists j :: 0 <= j < n && PositiveAt(benefits, j, i) && e == Entry(Products[j], benefits[j][i].v, client) {
        var j :| 0 <= j < n && PositiveAt(benefits, j, i) && e == Entry(Products[j], benefits[j][i].v, client);
        if j == n - 1 {
          assert e in last;
        }
      }
    }
  }

  /** The entries are exactly the positive cells of the table. */
  lemma {:induction false} EntriesMember(clients: seq<ClientId>, benefits: seq<seq<Num>>, m: nat, e: Entry)
    requires m <= |clients|
    ensures e in Entries(clients, benefits, m) <==> exists i: nat, j: nat :: i < m && FromCell(e, clients, benefits, i, j)
    decreases m
  {
    if m > 0 {
      EntriesMember(clients, benefits, m - 1, e);
      RowEntriesMember(clients[m - 1], benefits, m - 1, |Products|, e);
      if e in RowEntries(clients[m - 1], benefits, m - 1, |Products|) {
        var j :| 0 <= j < |Products| && PositiveAt(benefits, j, m - 1)
          && e == Entry(Products[j], benefits[j][m - 1].v, clients[m - 1]);
        assert FromCell(e, clients, benefits, m - 1, j);
      }
      if exists i: nat, j: nat :: i < m && FromCell(e, clients, benefits, i, j) {
        var i: nat, j: nat :| i < m && FromCell(e, clients, benefits, i, j);
        if i == m - 1 {
          assert e in RowEntries(clients[m - 1], benefits, m - 1, |Products|);
        }
      }
    }
  }

  /** Collecting `all_products` over `df_merged.iterrows()` and the benefit columns. */
  method CollectEntries(clients: seq<ClientId>, benefits: seq<seq<Num>>) returns (entries: seq<Entry>)
    requires Shaped(benefits, |clients|)
    ensures entries == Entries(clients, benefits, |clients|)
    ensures forall e :: e in entries <==> InTable(e, clients, benefits)
  {
    entries := [];
    for i := 0 to |clients|
      invariant entries == Entries(clients, benefits, i)
    {
      for j := 0 to |Products|
        invariant entries == Entries(clients, benefits, i) + RowEntries(clients[i], benefits, i, j)
      {
        var benefit := benefits[j][i];
        if benefit.Positive() {
          entries := entries + [Entry(Products[j], benefit.v, clients[i])];
        }
      }
    }
    forall e | true
      ensures e in entries <==> InTable(e, clients, benefits)
    {
      EntriesMember(clients, benefits, |clients|, e);
    }
  }

  /** Every element of the sorted list comes from a positive cell. */
  lemma SortedFromTable(clients: seq<ClientId>, benefits: seq<seq<Num>>)
    ensures FromTable(SortDesc(Entries(clients, benefits, |clients|), EntryBenefit), clients, benefits)
  {
    var entries := Entries(clients, benefits, |clients|);
    var sorted := SortDesc(entries, EntryBenefit);
    forall k | 0 <= k < |sorted|
      ensures InTable(sorted[k], clients, benefits)
    {
      SortDescMember(entries, EntryBenefit, k);
      EntriesMember(clients, benefits, |clients|, sorted[k]);
    }
  }

  // ---------------------------------------------------------------- group assignments

  /** An element `(client_code, product)` of `group_assignments[g]`. */
  datatype Assignment = Assignment(client: ClientId, product: Product)

  /** `group_assignments`: one assignment list per group. */
  datatype Buckets = Buckets(deposits: seq<Assignment>, cards: seq<Assignment>,
                             investments: seq<Assignment>, other: seq<Assignment>)
  {
    function Get(g: Group): seq<Assignment> {
      match g
      case DepositGroup => deposits
      case CardGroup => cards
      case InvestmentGroup => investments
      case OtherGroup => other
    }

    function Add(g: Group, a: Assignment): (b: Buckets)
      ensures b.Get(g) == Get(g) + [a]
      ensures forall h :: h != g ==> b.Get(h) == Get(h)
    {
      match g
      case DepositGroup => this.(deposits := deposits + [a])
      case CardGroup => this.(cards := cards + [a])
      case InvestmentGroup => this.(investments := investments + [a])
      case OtherGroup => this.(other := other + [a])
    }
  }

  /** The allocator's state: `group_assignments` and `assigned_clients`. */
  datatype State = State(buckets: Buckets, assignedClients: set<ClientId>)

  const Start: State := State(Buckets([], [], [], []), {})

  /** Appending `(client_code, product)` to a group and marking the client assigned. */
  function Assign(st: State, g: Group, e: Entry): State {
    State(st.buckets.Add(g, Assignment(e.client, e.product)), st.assignedClients + {e.client})
  }

  /** How often client `c` occurs in an assignment list. */
  function Occ(s: seq<Assignment>, c: ClientId): nat
    decreases |s|
  {
    if |s| == 0 then 0 else (if s[0].client == c then 1 else 0) + Occ(s[1..], c)
  }

  lemma {:induction false} OccAppend(s: seq<Assignment>, a: Assignment, c: ClientId)
    ensures Occ(s + [a], c) == Occ(s, c) + (if a.client == c then 1 else 0)
    decreases |s|
  {
    if |s| == 0 {
      assert ([a])[1..] == [];
    } else {
      assert (s + [a])[1..] == s[1..] + [a];
      OccAppend(s[1..], a, c);
    }
  }

  /** How often client `c` occurs in the lists of the first `n` groups. */
  function CountUpTo(b: Buckets, c: ClientId, n: nat): nat
    requires n <= |GroupOrder|
  {
    if n == 0 then 0 else CountUpTo(b, c, n - 1) + Occ(b.Get(GroupOrder[n - 1]), c)
  }

  function Count(b: Buckets, c: ClientId): nat {
    CountUpTo(b, c, |GroupOrder|)
  }

  lemma {:induction false} CountAdd(b: Buckets, g: Group, a: Assignment, c: ClientId, n: nat)
    requires n <= |GroupOrder|
    ensures CountUpTo(b.Add(g, a), c, n)
         == CountUpTo(b, c, n) + (if a.client == c && GroupIndex(g) < n then 1 else 0)
    decreases n
  {
    if n > 0 {
      CountAdd(b, g, a, c, n - 1);
      if GroupOrder[n - 1] == g {
        OccAppend(b.Get(g), a, c);
      }
    }
  }

  /** Client `c` has a positive benefit for product `p` in some row. */
  predicate Justified(c: ClientId, p: Product, clients: seq<ClientId>, benefits: seq<seq<Num>>) {
    exists i :: 0 <= i < |clients| && clients[i] == c && PositiveAt(benefits, Index(p), i)
  }

  /** Client `c` has some positive benefit in some row. */
  predicate HasPositive(c: ClientId, clients: seq<ClientId>, benefits: seq<seq<Num>>) {
    exists i, j :: 0 <= i < |clients| && 0 <= j < |Products| && clients[i] == c && PositiveAt(benefits, j, i)
  }

  /** What the allocator keeps true: a client is in `assigned_clients` exactly
      when it occurs, once, in the group lists; every assignment sits in its
      product's group and rests on a positive benefit of that client. */
  ghost predicate Sound(st: State, clients: seq<ClientId>, benefits: seq<seq<Num>>) {
    (forall c :: Count(st.buckets, c) == if c in st.assignedClients then 1 else 0)
    && (forall g: Group, k :: 0 <= k < |st.buckets.Get(g)| ==>
          GroupOf(st.buckets.Get(g)[k].product) == g
          && Justified(st.buckets.Get(g)[k].client, st.buckets.Get(g)[k].product, clients, benefits))
    && (forall c :: c in st.assignedClients ==> HasPositive(c, clients, benefits))
  }

  lemma StartSound(clients: seq<ClientId>, benefits: seq<seq<Num>>)
    ensures Sound(Start, clients, benefits)
  {
    forall c | true
      ensures Count(Start.buckets, c) == 0
    {
      var b := Start.buckets;
      assert forall g :: b.Get(g) == [];
      assert CountUpTo(b, c, 1) == 0;
      assert CountUpTo(b, c, 2) == 0;
      assert CountUpTo(b, c, 3) == 0;
    }
  }

  lemma AssignSound(st: State, g: Group, e: Entry, clients: seq<ClientId>, benefits: seq<seq<Num>>)
    requires Sound(st, clients, benefits)
    requires e.client !in st.assignedClients && GroupOf(e.product) == g
    requires InTable(e, clients, benefits)
    ensures Sound(Assign(st, g, e), clients, benefits)
  {
    var i: nat, j: nat :| FromCell(e, clients, benefits, i, j);
    assert Index(e.product) == j;
    assert Justified(e.client, e.product, clients, benefits);
    assert HasPositive(e.client, clients, benefits);
    var r := Assign(st, g, e);
    forall c | true
      ensures Count(r.buckets, c) == if c in r.assignedClients then 1 else 0
    {
      CountAdd(st.buckets, g, Assignment(e.client, e.product), c, |GroupOrder|);
    }
    forall h: Group, k | 0 <= k < |r.buckets.Get(h)|
      ensures GroupOf(r.buckets.Get(h)[k].product) == h
      ensures Justified(r.buckets.Get(h)[k].client, r.buckets.Get(h)[k].product, clients, benefits)
    {
      if h == g && k == |st.buckets.Get(g)| {
        assert r.buckets.Get(h)[k] == Assignment(e.client, e.product);
      } else {
        assert r.buckets.Get(h)[k] == st.buckets.Get(h)[k];
      }
    }
  }

  // ---------------------------------------------------------------- seeding

  /** The seeding loop's test: the entry is a product of group `g` and its client
      is not yet assigned. */
  predicate Eligible(e: Entry, g: Group, taken: set<ClientId>) {
    e.product in Members(g) && e.client !in taken
  }

  /** The position at which the seeding loop of group `g` breaks, if it does. */
  function FirstEligible(s: seq<Entry>, g: Group, taken: set<ClientId>): (r: Option<nat>)
    ensures r.Some? ==> r.value < |s| && Eligible(s[r.value], g, taken)
                        && forall k :: 0 <= k < r.value ==> !Eligible(s[k], g, taken)
    ensures r.None? ==> forall k :: 0 <= k < |s| ==> !Eligible(s[k], g, taken)
    decreases |s|
  {
    if |s| == 0 then None
    else if Eligible(s[0], g, taken) then Some(0)
    else match FirstEligible(s[1..], g, taken)
      case None => None
      case Some(k) => Some(k + 1)
  }

  function SeedGroup(st: State, g: Group, sorted: seq<Entry>): State {
    match FirstEligible(sorted, g, st.assignedClients)
    case None => st
    case Some(k) => Assign(st, g, sorted[k])
  }

  /** The state after seeding the first `n` groups in dictionary order: each
      seeded group holds at most one assignment, the others none. */
  function SeedUpTo(sorted: seq<Entry>, n: nat): (st: State)
    requires n <= |GroupOrder|
    ensures forall g :: |st.buckets.Get(g)| <= (if GroupIndex(g) < n then 1 else 0)
  {
    if n == 0 then Start
    else
      assert GroupIndex(GroupOrder[n - 1]) == n - 1;
      SeedGroup(SeedUpTo(sorted, n - 1), GroupOrder[n - 1], sorted)
  }

  /** Seeding keeps the state sound and leaves a seeded group empty only when
      every client with an entry of that group was already assigned. */
  lemma {:induction false} SeedFacts(sorted: seq<Entry>, n: nat, clients: seq<ClientId>, benefits: seq<seq<Num>>)
    requires n <= |GroupOrder|
    requires FromTable(sorted, clients, benefits)
    ensures Sound(SeedUpTo(sorted, n), clients, benefits)
    ensures forall g, k :: GroupIndex(g) < n && SeedUpTo(sorted, n).buckets.Get(g) == []
              && 0 <= k < |sorted| && sorted[k].product in Members(g)
              ==> sorted[k].client in SeedUpTo(sorted, n).assignedClients
    decreases n
  {
    if n == 0 {
      StartSound(clients, benefits);
    } else {
      SeedFacts(sorted, n - 1, clients, benefits);
      var prev := SeedUpTo(sorted, n - 1);
      var g := GroupOrder[n - 1];
      assert GroupIndex(g) == n - 1;
      match FirstEligible(sorted, g, prev.assignedClients)
      case None =>
      case Some(k) =>
        AssignSound(prev, g, sorted[k], clients, benefits);
        assert GroupOf(sorted[k].product) == g;
    }
  }

  /** The inner seeding loop: the position of the first entry of the group
      whose client is free, if any. */
  method ScanGroup(sorted: seq<Entry>, g: Group, taken: set<ClientId>) returns (r: Option<nat>)
    ensures r == FirstEligible(sorted, g, taken)
  {
    for k := 0 to |sorted|
      invariant forall m :: 0 <= m < k ==> !Eligible(sorted[m], g, taken)
    {
      var e := sorted[k];
      if e.product in Members(g) && e.client !in taken {
        return Some(k);
      }
    }
    return None;
  }

  /** The seeding loop: for each group in order, take the first entry in benefit
      order whose product is in the group and whose client is free. */
  method SeedGroups(sorted: seq<Entry>) returns (st: State)
    ensures st == SeedUpTo(sorted, |GroupOrder|)
  {
    st := Start;
    for n := 0 to |GroupOrder|
      invariant st == SeedUpTo(sorted, n)
    {
      var g := GroupOrder[n];
      var found := ScanGroup(sorted, g, st.assignedClients);
      if found.Some? {
        var e := sorted[found.value];
        st := State(st.buckets.Add(g, Assignment(e.client, e.product)), st.assignedClients + {e.client});
      }
    }
  }

  // ---------------------------------------------------------------- quotas

  function MaxNat(a: nat, b: nat): nat { if a < b then b else a }

  /** One step of the quota loop: skip assigned clients, otherwise assign the
      entry if its group is still below its target count. */
  function QuotaStep(st: State, e: Entry, total: nat): (r: State)
    ensures st.assignedClients <= r.assignedClients
    ensures forall g :: st.buckets.Get(g) <= r.buckets.Get(g)
    ensures forall g :: |r.buckets.Get(g)| <= MaxNat(|st.buckets.Get(g)|, Target(g, total))
    ensures Settled(r, e, total)
  {
    if e.client in st.assignedClients then st
    else
      var g := GroupOf(e.product);
      if |st.buckets.Get(g)| < Target(g, total) then Assign(st, g, e) else st
  }

  /** The quota loop over the first part of the sorted list. It only appends
      to the group lists, and lets no group grow past its target count unless
      it already was there. */
  function QuotaPass(st: State, s: seq<Entry>, total: nat): (r: State)
    ensures forall g :: st.buckets.Get(g) <= r.buckets.Get(g)
    ensures forall g :: |r.buckets.Get(g)| <= MaxNat(|st.buckets.Get(g)|, Target(g, total))
    decreases |s|
  {
    if |s| == 0 then st else QuotaStep(QuotaPass(st, s[..|s| - 1], total), s[|s| - 1], total)
  }

  lemma FromTablePrefix(s: seq<Entry>, n: nat, clients: seq<ClientId>, benefits: seq<seq<Num>>)
    requires n <= |s| && FromTable(s, clients, benefits)
    ensures FromTable(s[..n], clients, benefits)
  {
    forall k | 0 <= k < n
      ensures InTable(s[..n][k], clients, benefits)
    {
      assert s[..n][k] == s[k];
    }
  }

  /** The quota loop keeps the state sound and only grows `assigned_clients`. */
  lemma {:induction false} QuotaSound(st: State, s: seq<Entry>, total: nat, clients: seq<ClientId>, benefits: seq<seq<Num>>)
    requires Sound(st, clients, benefits)
    requires FromTable(s, clients, benefits)
    ensures Sound(QuotaPass(st, s, total), clients, benefits)
    ensures st.assignedClients <= QuotaPass(st, s, total).assignedClients
    decreases |s|
  {
    if |s| > 0 {
      var n := |s| - 1;
      FromTablePrefix(s, n, clients, benefits);
      QuotaSound(st, s[..n], total, clients, benefits);
      QuotaStepSound(QuotaPass(st, s[..n], total), s[n], total, clients, benefits);
    }
  }

  /** One step of the quota loop keeps the state sound. */
  lemma QuotaStepSound(prev: State, e: Entry, total: nat, clients: seq<ClientId>, benefits: seq<seq<Num>>)
    requires Sound(prev, clients, benefits)
    requires InTable(e, clients, benefits)
    ensures Sound(QuotaStep(prev, e, total), clients, benefits)
  {
    if e.client !in prev.assignedClients && |prev.buckets.Get(GroupOf(e.product))| < Target(GroupOf(e.product), total) {
      AssignSound(prev, GroupOf(e.product), e, clients, benefits);
    }
  }

  /** Entry `e` no longer matters to the quota loop: its client is assigned or
      its group has reached the target count. */
  predicate Settled(st: State, e: Entry, total: nat) {
    e.client in st.assignedClients || |st.buckets.Get(GroupOf(e.product))| >= Target(GroupOf(e.product), total)
  }

  lemma SettledStays(st: State, e: Entry, next: Entry, total: nat)
    requires Settled(st, e, total)
    ensures Settled(QuotaStep(st, next, total), e, total)
  {
    var g := GroupOf(e.product);
    assert |st.buckets.Get(g)| <= |QuotaStep(st, next, total).buckets.Get(g)|;
  }

  /** After the quota loop an entry's client is unassigned only when the
      entry's group has reached its target count. */
  lemma {:induction false} QuotaStarved(st: State, s: seq<Entry>, total: nat)
    ensures forall k :: 0 <= k < |s| ==> Settled(QuotaPass(st, s, total), s[k], total)
    decreases |s|
  {
    if |s| > 0 {
      var n := |s| - 1;
      QuotaStarved(st, s[..n], total);
      var prev := QuotaPass(st, s[..n], total);
      var next := QuotaStep(prev, s[n], total);
      assert QuotaPass(st, s, total) == next;
      forall k | 0 <= k < n
        ensures Settled(next, s[k], total)
      {
        assert s[..n][k] == s[k];
        SettledStays(prev, s[k], s[n], total);
      }
      assert Settled(next, s[n], total);
    }
  }

  /** The group of a product: the first group, in dictionary order, whose
      member list holds it. */
  method FindGroup(p: Product) returns (g: Group)
    ensures g == GroupOf(p) && p in Members(g)
  {
    var n := 0;
    while p !in Members(GroupOrder[n])
      invariant n <= GroupIndex(GroupOf(p))
      decreases GroupIndex(GroupOf(p)) - n
    {
      n := n + 1;
    }
    g := GroupOrder[n];
  }

  /** The quota loop over the whole sorted list. */
  method FillQuotas(st0: State, sorted: seq<Entry>, total: nat) returns (st: State)
    ensures st == QuotaPass(st0, sorted, total)
  {
    st := st0;
    for k := 0 to |sorted|
      invariant st == QuotaPass(st0, sorted[..k], total)
    {
      assert sorted[..k + 1][..k] == sorted[..k];
      var e := sorted[k];
      if e.client in st.assignedClients {
        continue;
      }
      var g := FindGroup(e.product);
      if |st.buckets.Get(g)| < Target(g, total) {
        st := State(st.buckets.Add(g, Assignment(e.client, e.product)), st.assignedClients + {e.client});
      }
    }
    assert sorted[..|sorted|] == sorted;
  }

  // ---------------------------------------------------------------- final recommendations

  /** Where the search of one assignment list for client `c` breaks, if it does. */
  function FirstMatch(s: seq<Assignment>, c: ClientId): (r: Option<nat>)
    ensures r.Some? ==> r.value < |s| && s[r.value].client == c
                        && forall k :: 0 <= k < r.value ==> s[k].client != c
    ensures r.None? ==> forall k :: 0 <= k < |s| ==> s[k].client != c
    ensures r.Some? <==> Occ(s, c) > 0
    decreases |s|
  {
    if |s| == 0 then None
    else if s[0].client == c then Some(0)
    else match FirstMatch(s[1..], c)
      case None => None
      case Some(k) => Some(k + 1)
  }

  function Matched(s: seq<Assignment>, c: ClientId): seq<Product> {
    match FirstMatch(s, c)
    case None => []
    case Some(k) => [s[k].product]
  }

  /** The products found for client `c` in the lists of the first `n` groups. */
  function AssignedUpTo(b: Buckets, c: ClientId, n: nat): seq<Product>
    requires n <= |GroupOrder|
  {
    if n == 0 then [] else AssignedUpTo(b, c, n - 1) + Matched(b.Get(GroupOrder[n - 1]), c)
  }

  /** Each group contributes one product when it holds the client, so the search
      finds at most as many products as the client has assignments, and at least
      one when it has any; each product found is one of the client's assignments. */
  lemma {:induction false} AssignedCount(b: Buckets, c: ClientId, n: nat)
    requires n <= |GroupOrder|
    ensures |AssignedUpTo(b, c, n)| <= CountUpTo(b, c, n)
    ensures CountUpTo(b, c, n) > 0 ==> |AssignedUpTo(b, c, n)| > 0
    ensures forall k :: 0 <= k < |AssignedUpTo(b, c, n)| ==>
              exists g, m :: 0 <= m < |b.Get(g)| && b.Get(g)[m] == Assignment(c, AssignedUpTo(b, c, n)[k])
    decreases n
  {
    if n > 0 {
      AssignedCount(b, c, n - 1);
      var g := GroupOrder[n - 1];
      var prev := AssignedUpTo(b, c, n - 1);
      var r := AssignedUpTo(b, c, n);
      forall k | 0 <= k < |r|
        ensures exists g', m :: 0 <= m < |b.Get(g')| && b.Get(g')[m] == Assignment(c, r[k])
      {
        if k < |prev| {
          assert r[k] == prev[k];
        } else {
          var m := FirstMatch(b.Get(g), c).value;
          assert b.Get(g)[m] == Assignment(c, r[k]);
        }
      }
    }
  }

  /** A benefit of one row, as `(column, value)` in `client_benefits`. */
  datatype Item = Item(product: Product, benefit: real)

  function ItemBenefit(x: Item): real { x.benefit }

  /** The numeric cells of row `i` for the first `n` products, in column order
      (NaN cells are dropped, see README). */
  function RowItems(benefits: seq<seq<Num>>, i: nat, n: nat): seq<Item>
    requires n <= |Products|
  {
    if n == 0 then [] else RowItems(benefits, i, n - 1) + ItemAt(benefits, i, n - 1)
  }

  /** The item of cell (j, i), if it holds a number. */
  function ItemAt(benefits: seq<seq<Num>>, i: nat, j: nat): seq<Item>
    requires j < |Products|
  {
    if j < |benefits| && i < |benefits[j]| && benefits[j][i].Real? then [Item(Products[j], benefits[j][i].v)] else []
  }

  function PositiveItems(s: seq<Item>): seq<Item>
    decreases |s|
  {
    if |s| == 0 then []
    else PositiveItems(s[..|s| - 1]) + (if s[|s| - 1].benefit > 0.0 then [s[|s| - 1]] else [])
  }

  function Names(s: seq<Item>): seq<Product> {
    seq(|s|, k requires 0 <= k < |s| => s[k].product)
  }

  /** `recommendations[:4]`. */
  function Prefix4<T>(s: seq<T>): seq<T> {
    if |s| <= 4 then s else s[..4]
  }

  /** The fallback walk over the first `n` sorted items: append each positive
      one while fewer than four are taken. */
  function Walk(s: seq<Item>, n: nat): seq<Product>
    requires n <= |s|
  {
    if n == 0 then []
    else
      var r := Walk(s, n - 1);
      if s[n - 1].benefit > 0.0 && |r| < 4 then r + [s[n - 1].product] else r
  }

  /** `get_final_recommendations` for a row with client code `c`: at most four
      products; without an assignment of the client, the first four positive
      items of the row in descending benefit order. */
  function Recommend(b: Buckets, c: ClientId, items: seq<Item>): (r: seq<Product>)
    ensures |r| <= 4
    ensures |AssignedUpTo(b, c, |GroupOrder|)| == 0 ==>
      r == Names(Prefix4(PositiveItems(SortDesc(items, ItemBenefit))))
  {
    var found := AssignedUpTo(b, c, |GroupOrder|);
    var sorted := SortDesc(items, ItemBenefit);
    WalkPositives(sorted, |sorted|);
    assert sorted[..|sorted|] == sorted;
    Prefix4(if |found| == 0 then Walk(sorted, |sorted|) else found)
  }

  /** The inner search loop: the product of the client's first assignment in
      one list, if any. */
  method SearchAssignments(assignments: seq<Assignment>, c: ClientId) returns (found: seq<Product>)
    ensures found == Matched(assignments, c)
  {
    for k := 0 to |assignments|
      invariant forall m :: 0 <= m < k ==> assignments[m].client != c
    {
      if assignments[k].client == c {
        return [assignments[k].product];
      }
    }
    return [];
  }

  /** The search of `group_assignments`, group by group, for the row's client. */
  method FindAssigned(b: Buckets, c: ClientId) returns (recs: seq<Product>)
    ensures recs == AssignedUpTo(b, c, |GroupOrder|)
  {
    recs := [];
    for n := 0 to |GroupOrder|
      invariant recs == AssignedUpTo(b, c, n)
    {
      var found := SearchAssignments(b.Get(GroupOrder[n]), c);
      recs := recs + found;
    }
  }

  /** The fallback walk over the sorted benefits of the row. */
  method WalkSorted(sorted: seq<Item>) returns (recs: seq<Product>)
    ensures recs == Walk(sorted, |sorted|)
  {
    recs := [];
    for k := 0 to |sorted|
      invariant recs == Walk(sorted, k)
    {
      if sorted[k].benefit > 0.0 && |recs| < 4 {
        recs := recs + [sorted[k].product];
      }
    }
  }

  /** `get_final_recommendations` for one row. */
  method FinalRecommendation(b: Buckets, c: ClientId, items: seq<Item>) returns (recs: seq<Product>)
    ensures recs == Recommend(b, c, items)
  {
    recs := FindAssigned(b, c);
    if |recs| == 0 {
      recs := WalkSorted(SortDesc(items, ItemBenefit));
    }
    recs := if |recs| <= 4 then recs else recs[..4];
  }

  // ---------------------------------------------------------------- the allocator

  /** The allocator's state after both passes. */
  function FinalState(clients: seq<ClientId>, benefits: seq<seq<Num>>): State {
    var sorted := SortDesc(Entries(clients, benefits, |clients|), EntryBenefit);
    QuotaPass(SeedUpTo(sorted, |GroupOrder|), sorted, |clients|)
  }

  /** `top4_products` for every row. */
  function Allocate(clients: seq<ClientId>, benefits: seq<seq<Num>>): (recs: seq<seq<Product>>)
    ensures |recs| == |clients|
    ensures forall i :: 0 <= i < |recs| ==> |recs[i]| <= 4
  {
    var st := FinalState(clients, benefits);
    seq(|clients|, i requires 0 <= i < |clients| => Recommend(st.buckets, clients[i], RowItems(benefits, i, |Products|)))
  }

  // ---------------------------------------------------------------- ranked benefits of a row

  lemma {:induction false} PositiveItemsSub(s: seq<Item>)
    ensures forall x :: x in PositiveItems(s) ==> x in s && x.benefit > 0.0
    decreases |s|
  {
    if |s| > 0 {
      var n := |s| - 1;
      PositiveItemsSub(s[..n]);
      assert forall x :: x in s[..n] ==> x in s;
    }
  }

  lemma {:induction false} PositiveItemsDescending(s: seq<Item>)
    requires Descending(s, ItemBenefit)
    ensures Descending(PositiveItems(s), ItemBenefit)
    decreases |s|
  {
    if |s| > 0 {
      var n := |s| - 1;
      DescendingPrefix(s, n, ItemBenefit);
      PositiveItemsDescending(s[..n]);
      PositiveItemsSub(s[..n]);
      var prev := PositiveItems(s[..n]);
      if s[n].benefit > 0.0 {
        forall y | y in prev ensures ItemBenefit(y) >= ItemBenefit(s[n]) {
          var m :| 0 <= m < n && s[..n][m] == y;
          assert s[m] == y;
        }
        DescendingSnoc(prev, s[n], ItemBenefit);
      }
    }
  }

  /** Filtering positives commutes with taking multisets. */
  lemma {:induction false} PositiveItemsCount(s: seq<Item>, x: Item)
    ensures multiset(PositiveItems(s))[x] == if x.benefit > 0.0 then multiset(s)[x] else 0
    decreases |s|
  {
    if |s| > 0 {
      var n := |s| - 1;
      PositiveItemsCount(s[..n], x);
      assert s == s[..n] + [s[n]];
    }
  }

  lemma PositiveItemsPermutation(s: seq<Item>, t: seq<Item>)
    requires multiset(s) == multiset(t)
    ensures multiset(PositiveItems(s)) == multiset(PositiveItems(t))
  {
    forall x | true
      ensures multiset(PositiveItems(s))[x] == multiset(PositiveItems(t))[x]
    {
      PositiveItemsCount(s, x);
      PositiveItemsCount(t, x);
    }
  }

  /** The fallback walk takes the first four positive items, in order. */
  lemma {:induction false} WalkPositives(s: seq<Item>, n: nat)
    requires n <= |s|
    ensures Walk(s, n) == Names(Prefix4(PositiveItems(s[..n])))
    decreases n
  {
    if n == 0 {
      assert s[..0] == [];
    } else {
      WalkPositives(s, n - 1);
      assert s[..n][..n - 1] == s[..n - 1];
      assert s[..n][n - 1] == s[n - 1];
      var prev := PositiveItems(s[..n - 1]);
      if s[n - 1].benefit > 0.0 && |prev| < 4 {
        assert Names(prev + [s[n - 1]]) == Names(prev) + [s[n - 1].product];
      } else if s[n - 1].benefit > 0.0 {
        assert (prev + [s[n - 1]])[..4] == prev[..4];
      }
    }
  }

  /** Item `x` is the numeric cell (j, i). */
  predicate CellItem(x: Item, benefits: seq<seq<Num>>, i: nat, j: nat) {
    j < |Products| && j < |benefits| && i < |benefits[j]|
    && benefits[j][i] == Real(x.benefit) && x.product == Products[j]
  }

  lemma {:induction false} RowItemsMember(benefits: seq<seq<Num>>, i: nat, n: nat, x: Item)
    requires n <= |Products|
    ensures x in RowItems(benefits, i, n) ==> exists j: nat :: j < n && CellItem(x, benefits, i, j)
    decreases n
  {
    if n > 0 {
      RowItemsMember(benefits, i, n - 1, x);
      if x in ItemAt(benefits, i, n - 1) {
        assert CellItem(x, benefits, i, n - 1);
      }
    }
  }

  function ItemProduct(x: Item): Product { x.product }

  lemma {:induction false} RowItemsInjective(benefits: seq<seq<Num>>, i: nat, n: nat)
    requires n <= |Products|
    ensures Injective(RowItems(benefits, i, n), ItemProduct)
    ensures forall x :: x in RowItems(benefits, i, n) ==> Index(x.product) < n
    decreases n
  {
    if n > 0 {
      RowItemsInjective(benefits, i, n - 1);
      var prev := RowItems(benefits, i, n - 1);
      var r := RowItems(benefits, i, n);
      forall a, b | 0 <= a < b < |r| ensures r[a].product != r[b].product {
        if b >= |prev| {
          assert r[a] == prev[a] && r[a] in prev;
          assert Index(r[b].product) == n - 1;
        } else {
          assert r[a] == prev[a] && r[b] == prev[b];
        }
      }
    }
  }

  lemma {:induction false} PositiveItemsInjective(s: seq<Item>)
    requires Injective(s, ItemProduct)
    ensures Injective(PositiveItems(s), ItemProduct)
    decreases |s|
  {
    if |s| > 0 {
      var n := |s| - 1;
      assert Injective(s[..n], ItemProduct) by {
        forall a, b | 0 <= a < b < n ensures s[..n][a].product != s[..n][b].product {
          assert s[..n][a] == s[a] && s[..n][b] == s[b];
        }
      }
      PositiveItemsInjective(s[..n]);
      PositiveItemsSub(s[..n]);
      var prev := PositiveItems(s[..n]);
      var r := PositiveItems(s);
      forall a, b | 0 <= a < b < |r| ensures r[a].product != r[b].product {
        assert r[a] == prev[a];
        if b < |prev| {
          assert r[b] == prev[b];
        } else {
          assert r[b] == s[n];
          assert prev[a] in s[..n];
          var m :| 0 <= m < n && s[..n][m] == prev[a];
          assert s[m] == prev[a];
        }
      }
    }
  }

  /** The ranking used for a row without an assigned product: its positive
      benefits, sorted descending. */
  function Ranked(benefits: seq<seq<Num>>, i: nat): seq<Item> {
    PositiveItems(SortDesc(RowItems(benefits, i, |Products|), ItemBenefit))
  }

  /** The ranking is descending, holds exactly the row's positive benefits and
      names no product twice. */
  lemma RankedFacts(benefits: seq<seq<Num>>, i: nat)
    ensures Descending(Ranked(benefits, i), ItemBenefit)
    ensures multiset(Ranked(benefits, i)) == multiset(PositiveItems(RowItems(benefits, i, |Products|)))
    ensures Injective(Ranked(benefits, i), ItemProduct)
  {
    var items := RowItems(benefits, i, |Products|);
    var sorted := SortDesc(items, ItemBenefit);
    SortDescFacts(items, ItemBenefit);
    PositiveItemsDescending(sorted);
    PositiveItemsPermutation(sorted, items);
    RowItemsInjective(benefits, i, |Products|);
    SortDescInjective(items, ItemBenefit, ItemProduct);
    PositiveItemsInjective(sorted);
  }

  /** Every ranked item is a positive cell of the row, with its value. */
  lemma RankedCells(benefits: seq<seq<Num>>, i: nat)
    ensures forall k :: 0 <= k < |Ranked(benefits, i)| ==>
              PositiveAt(benefits, Index(Ranked(benefits, i)[k].product), i)
              && benefits[Index(Ranked(benefits, i)[k].product)][i] == Real(Ranked(benefits, i)[k].benefit)
  {
    var items := RowItems(benefits, i, |Products|);
    var sorted := SortDesc(items, ItemBenefit);
    SortDescFacts(items, ItemBenefit);
    PositiveItemsPermutation(sorted, items);
    PositiveItemsSub(items);
    var r := Ranked(benefits, i);
    forall k | 0 <= k < |r|
      ensures PositiveAt(benefits, Index(r[k].product), i) && benefits[Index(r[k].product)][i] == Real(r[k].benefit)
    {
      assert r[k] in multiset(r);
      assert r[k] in PositiveItems(items);
      RowItemsMember(benefits, i, |Products|, r[k]);
      var j: nat :| j < |Products| && CellItem(r[k], benefits, i, j);
      assert Index(r[k].product) == j;
    }
  }

  lemma RankedHasPositive(clients: seq<ClientId>, benefits: seq<seq<Num>>, i: nat)
    requires i < |clients| && |Ranked(benefits, i)| > 0
    ensures HasPositive(clients[i], clients, benefits)
  {
    RankedCells(benefits, i);
    var j := Index(Ranked(benefits, i)[0].product);
    assert 0 <= i < |clients| && 0 <= j < |Products| && clients[i] == clients[i] && PositiveAt(benefits, j, i);
  }

  // ---------------------------------------------------------------- what the allocator guarantees

  lemma FinalSound(clients: seq<ClientId>, benefits: seq<seq<Num>>)
    ensures Sound(FinalState(clients, benefits), clients, benefits)
  {
    var sorted := SortDesc(Entries(clients, benefits, |clients|), EntryBenefit);
    SortedFromTable(clients, benefits);
    SeedFacts(sorted, |GroupOrder|, clients, benefits);
    QuotaSound(SeedUpTo(sorted, |GroupOrder|), sorted, |clients|, clients, benefits);
  }

  /** No group ends with more assignments than its target count, except that
      seeding may give a group with a target of zero its one best entry. */
  lemma GroupCapacity(clients: seq<ClientId>, benefits: seq<seq<Num>>, g: Group)
    ensures |FinalState(clients, benefits).buckets.Get(g)| <= MaxNat(1, Target(g, |clients|))
  {
    var sorted := SortDesc(Entries(clients, benefits, |clients|), EntryBenefit);
    SortedFromTable(clients, benefits);
    SeedFacts(sorted, |GroupOrder|, clients, benefits);
  }

  /** A client left without an assigned product had, for every product with a
      positive benefit, that product's group already at its target count. */
  lemma StarvedClient(clients: seq<ClientId>, benefits: seq<seq<Num>>, i: nat, j: nat)
    requires i < |clients| && j < |Products| && PositiveAt(benefits, j, i)
    requires clients[i] !in FinalState(clients, benefits).assignedClients
    ensures |FinalState(clients, benefits).buckets.Get(GroupOf(Products[j]))| >= Target(GroupOf(Products[j]), |clients|)
  {
    var entries := Entries(clients, benefits, |clients|);
    var sorted := SortDesc(entries, EntryBenefit);
    var e := Entry(Products[j], benefits[j][i].v, clients[i]);
    assert FromCell(e, clients, benefits, i, j);
    EntriesMember(clients, benefits, |clients|, e);
    SortDescContains(entries, EntryBenefit, e);
    var k :| 0 <= k < |sorted| && sorted[k] == e;
    QuotaStarved(SeedUpTo(sorted, |GroupOrder|), sorted, |clients|);
  }

  /** A group ends with no assignment only if every client with a positive
      benefit for one of its products got a product of another group. */
  lemma EmptyGroup(clients: seq<ClientId>, benefits: seq<seq<Num>>, g: Group, i: nat, j: nat)
    requires FinalState(clients, benefits).buckets.Get(g) == []
    requires i < |clients| && j < |Products| && PositiveAt(benefits, j, i) && Products[j] in Members(g)
    ensures clients[i] in FinalState(clients, benefits).assignedClients
  {
    var entries := Entries(clients, benefits, |clients|);
    var sorted := SortDesc(entries, EntryBenefit);
    var e := Entry(Products[j], benefits[j][i].v, clients[i]);
    assert FromCell(e, clients, benefits, i, j);
    EntriesMember(clients, benefits, |clients|, e);
    SortDescContains(entries, EntryBenefit, e);
    SortedFromTable(clients, benefits);
    var seeded := SeedUpTo(sorted, |GroupOrder|);
    SeedFacts(sorted, |GroupOrder|, clients, benefits);
    QuotaSound(seeded, sorted, |clients|, clients, benefits);
    assert seeded.buckets.Get(g) == [];
  }

  /** A row whose client holds an assignment is recommended exactly that one
      product, which sits in its own group's list and rests on a positive
      benefit of that client. */
  lemma AssignedRecommendation(clients: seq<ClientId>, benefits: seq<seq<Num>>, i: nat)
    requires i < |clients| && clients[i] in FinalState(clients, benefits).assignedClients
    ensures |Allocate(clients, benefits)[i]| == 1
    ensures Assignment(clients[i], Allocate(clients, benefits)[i][0])
            in FinalState(clients, benefits).buckets.Get(GroupOf(Allocate(clients, benefits)[i][0]))
    ensures Justified(clients[i], Allocate(clients, benefits)[i][0], clients, benefits)
  {
    var found := AssignedUpTo(FinalState(clients, benefits).buckets, clients[i], |GroupOrder|);
    AssignedFound(clients, benefits, i);
    AllocateAt(clients, benefits, i);
    assert Allocate(clients, benefits)[i] == found;
  }

  /** The search for an assigned client finds exactly its one assignment. */
  lemma AssignedFound(clients: seq<ClientId>, benefits: seq<seq<Num>>, i: nat)
    requires i < |clients| && clients[i] in FinalState(clients, benefits).assignedClients
    ensures |AssignedUpTo(FinalState(clients, benefits).buckets, clients[i], |GroupOrder|)| == 1
    ensures var p := AssignedUpTo(FinalState(clients, benefits).buckets, clients[i], |GroupOrder|)[0];
            Assignment(clients[i], p) in FinalState(clients, benefits).buckets.Get(GroupOf(p))
            && Justified(clients[i], p, clients, benefits)
  {
    var st := FinalState(clients, benefits);
    FinalSound(clients, benefits);
    assert Count(st.buckets, clients[i]) == 1;
    AssignedCount(st.buckets, clients[i], |GroupOrder|);
    var found := AssignedUpTo(st.buckets, clients[i], |GroupOrder|);
    var g, m :| 0 <= m < |st.buckets.Get(g)| && st.buckets.Get(g)[m] == Assignment(clients[i], found[0]);
    assert GroupOf(found[0]) == g;
  }

  lemma AllocateAt(clients: seq<ClientId>, benefits: seq<seq<Num>>, i: nat)
    requires i < |clients|
    ensures Allocate(clients, benefits)[i]
         == Recommend(FinalState(clients, benefits).buckets, clients[i], RowItems(benefits, i, |Products|))
  {
  }

  /** A row whose client holds no assignment is recommended its positive
      benefits in descending order, at most four of them. */
  lemma UnassignedRecommendation(clients: seq<ClientId>, benefits: seq<seq<Num>>, i: nat)
    requires i < |clients| && clients[i] !in FinalState(clients, benefits).assignedClients
    ensures Allocate(clients, benefits)[i] == Names(Prefix4(Ranked(benefits, i)))
  {
    var st := FinalState(clients, benefits);
    FinalSound(clients, benefits);
    assert Count(st.buckets, clients[i]) == 0;
    AssignedCount(st.buckets, clients[i], |GroupOrder|);
    var sorted := SortDesc(RowItems(benefits, i, |Products|), ItemBenefit);
    WalkPositives(sorted, |sorted|);
    assert sorted[..|sorted|] == sorted;
  }

  /** Every row gets at most four products, each with a positive benefit for
      its client. */
  lemma RecommendationJustified(clients: seq<ClientId>, benefits: seq<seq<Num>>, i: nat)
    requires i < |clients|
    ensures |Allocate(clients, benefits)[i]| <= 4
    ensures forall k :: 0 <= k < |Allocate(clients, benefits)[i]| ==>
              Justified(clients[i], Allocate(clients, benefits)[i][k], clients, benefits)
  {
    if clients[i] in FinalState(clients, benefits).assignedClients {
      AssignedRecommendation(clients, benefits, i);
    } else {
      UnassignedRecommendation(clients, benefits, i);
      RankedJustified(clients, benefits, i);
    }
  }

  /** The first four ranked products of a row are positive for its client. */
  lemma RankedJustified(clients: seq<ClientId>, benefits: seq<seq<Num>>, i: nat)
    requires i < |clients|
    ensures |Names(Prefix4(Ranked(benefits, i)))| <= 4
    ensures forall k :: 0 <= k < |Names(Prefix4(Ranked(benefits, i)))| ==>
              Justified(clients[i], Names(Prefix4(Ranked(benefits, i)))[k], clients, benefits)
  {
    RankedCells(benefits, i);
    var ranked := Ranked(benefits, i);
    var r := Names(Prefix4(ranked));
    forall k | 0 <= k < |r|
      ensures Justified(clients[i], r[k], clients, benefits)
    {
      assert r[k] == ranked[k].product;
    }
  }

  /** No product is recommended twice to the same row. */
  lemma RecommendationDistinct(clients: seq<ClientId>, benefits: seq<seq<Num>>, i: nat)
    requires i < |clients|
    ensures forall a, b :: 0 <= a < b < |Allocate(clients, benefits)[i]| ==>
              Allocate(clients, benefits)[i][a] != Allocate(clients, benefits)[i][b]
  {
    if clients[i] in FinalState(clients, benefits).assignedClients {
      AssignedRecommendation(clients, benefits, i);
    } else {
      UnassignedDistinct(clients, benefits, i);
    }
  }

  lemma UnassignedDistinct(clients: seq<ClientId>, benefits: seq<seq<Num>>, i: nat)
    requires i < |clients| && clients[i] !in FinalState(clients, benefits).assignedClients
    ensures forall a, b :: 0 <= a < b < |Allocate(clients, benefits)[i]| ==>
              Allocate(clients, benefits)[i][a] != Allocate(clients, benefits)[i][b]
  {
    UnassignedRecommendation(clients, benefits, i);
    RankedFacts(benefits, i);
    NamesDistinct(Ranked(benefits, i));
  }

  lemma NamesDistinct(s: seq<Item>)
    requires Injective(s, ItemProduct)
    ensures forall a, b :: 0 <= a < b < |Names(Prefix4(s))| ==> Names(Prefix4(s))[a] != Names(Prefix4(s))[b]
  {
    var p := Prefix4(s);
    forall a, b | 0 <= a < b < |Names(p)| ensures Names(p)[a] != Names(p)[b] {
      assert p[a] == s[a] && p[b] == s[b];
      assert ItemProduct(s[a]) != ItemProduct(s[b]);
    }
  }


  /** Each client holds at most one assignment over all groups, and holds one
      exactly when it is in `assigned_clients`. */
  lemma AssignedOnce(clients: seq<ClientId>, benefits: seq<seq<Num>>, c: ClientId)
    ensures Count(FinalState(clients, benefits).buckets, c) <= 1
    ensures Count(FinalState(clients, benefits).buckets, c) == 1 <==> c in FinalState(clients, benefits).assignedClients
  {
    FinalSound(clients, benefits);
  }

  /** A client with no positive benefit in any of its rows gets an empty
      recommendation list: there is no fallback and no padding. */
  lemma NoPositiveNoRecommendation(clients: seq<ClientId>, benefits: seq<seq<Num>>, i: nat)
    requires i < |clients| && !HasPositive(clients[i], clients, benefits)
    ensures Allocate(clients, benefits)[i] == []
  {
    FinalSound(clients, benefits);
    UnassignedRecommendation(clients, benefits, i);
    if |Ranked(benefits, i)| > 0 {
      RankedHasPositive(clients, benefits, i);
      assert false;
    }
  }

  /** `df_merged.apply(get_final_recommendations, axis=1)`. */
  method FinalRecommendations(b: Buckets, clients: seq<ClientId>, benefits: seq<seq<Num>>) returns (recs: seq<seq<Product>>)
    ensures |recs| == |clients|
    ensures forall i :: 0 <= i < |clients| ==> recs[i] == Recommend(b, clients[i], RowItems(benefits, i, |Products|))
  {
    recs := [];
    for i := 0 to |clients|
      invariant |recs| == i
      invariant forall m :: 0 <= m < i ==> recs[m] == Recommend(b, clients[m], RowItems(benefits, m, |Products|))
    {
      var r := FinalRecommendation(b, clients[i], RowItems(benefits, i, |Products|));
      recs := recs + [r];
    }
  }

  /** `_apply_global_diversity`. */
  method GlobalDiversity(clients: seq<ClientId>, benefits: seq<seq<Num>>) returns (recs: seq<seq<Product>>)
    requires Shaped(benefits, |clients|)
    ensures recs == Allocate(clients, benefits)
    ensures |recs| == |clients|
    ensures forall i :: 0 <= i < |recs| ==> |recs[i]| <= 4
    ensures forall i, k :: 0 <= i < |recs| && 0 <= k < |recs[i]| ==> Justified(clients[i], recs[i][k], clients, benefits)
  {
    var total := |clients|;
    var entries := CollectEntries(clients, benefits);
    var sorted := SortDesc(entries, EntryBenefit);
    var seeded := SeedGroups(sorted);
    var st := FillQuotas(seeded, sorted, total);
    recs := FinalRecommendations(st.buckets, clients, benefits);
    assert st == FinalState(clients, benefits);
    assert recs == Allocate(clients, benefits);
    forall i | 0 <= i < |recs|
      ensures |recs[i]| <= 4
      ensures forall k :: 0 <= k < |recs[i]| ==> Justified(clients[i], recs[i][k], clients, benefits)
    {
      RecommendationJustified(clients, benefits, i);
    }
  }
}
