/**
  The dashboard's independent aggregations over loans and repayment instalments, read from
  one snapshot, and the agreement between their totals. Amounts are in the smallest unit.
 */
module DashboardTotals {
  import opened Options

  datatype LoanStatus = DISBURSED | FULLY_PAID | OTHER

  datatype Loan = Loan(id: nat, lender: string, status: LoanStatus, disbursalAmount: Option<int>)

  datatype Instalment = Instalment(loanId: nat, paid: bool, remaining: int, dueDay: int)

  /** Disbursed loans include the repaid ones. */
  predicate Disbursed(l: Loan): (r: bool)
    ensures r <==> l.status != OTHER
  {
    l.status.DISBURSED? || l.status.FULLY_PAID?
  }

  function OrZero(x: Option<int>): int { if x.Some? then x.value else 0 }

  /** Loan ids are the table's primary key. */
  ghost predicate UniqueIds(loans: seq<Loan>) { forall m, n :: 0 <= m < n < |loans| ==> loans[m].id != loans[n].id }

  // ----- Grouping

  datatype Group<K> = Group(key: K, count: nat, sum: int)

  /** GROUP BY key with COUNT(*) and SUM(amount): one row added to its group. */
  function AddTo<K(==)>(groups: seq<Group<K>>, key: K, amount: int): seq<Group<K>> {
    if groups == [] then [Group(key, 1, amount)]
    else if groups[0].key == key then [Group(key, groups[0].count + 1, groups[0].sum + amount)] + groups[1..]
    else [groups[0]] + AddTo(groups[1..], key, amount)
  }

  function GroupBy<K(==)>(rows: seq<(K, int)>): seq<Group<K>> {
    if rows == [] then []
    else AddTo(GroupBy(rows[..|rows| - 1]), rows[|rows| - 1].0, rows[|rows| - 1].1)
  }

  function Sum(xs: seq<int>): int { if xs == [] then 0 else Sum(xs[..|xs| - 1]) + xs[|xs| - 1] }

  function Amounts<K>(rows: seq<(K, int)>): (r: seq<int>)
    ensures |r| == |rows| && forall k :: 0 <= k < |r| ==> r[k] == rows[k].1
  {
    seq(|rows|, k requires 0 <= k < |rows| => rows[k].1)
  }

  function SumOf<K>(groups: seq<Group<K>>): int {
    if groups == [] then 0 else groups[0].sum + SumOf(groups[1..])
  }

  function CountOf<K>(groups: seq<Group<K>>): nat {
    if groups == [] then 0 else groups[0].count + CountOf(groups[1..])
  }

  /** The group of a key, as the report looks it up; a missing group counts as nothing. */
  function Find<K(==)>(groups: seq<Group<K>>, key: K): (g: Group<K>)
    ensures g.key == key
  {
    if groups == [] then Group(key, 0, 0)
    else if groups[0].key == key then groups[0]
    else Find(groups[1..], key)
  }

  // ----- Open instalments

  predicate HasDisbursedLoan(loans: seq<Loan>, id: nat) {
    exists k :: 0 <= k < |loans| && loans[k].id == id && Disbursed(loans[k])
  }

  predicate Open(loans: seq<Loan>, i: Instalment) { !i.paid && HasDisbursedLoan(loans, i.loanId) }

  /** The portfolio aggregate: remaining amount and number of open instalments. */
  function TotalReceivable(loans: seq<Loan>, insts: seq<Instalment>): int {
    if insts == [] then 0
    else
      var i := insts[|insts| - 1];
      TotalReceivable(loans, insts[..|insts| - 1]) + if Open(loans, i) then i.remaining else 0
  }

  function OpenCount(loans: seq<Loan>, insts: seq<Instalment>): nat {
    if insts == [] then 0
    else OpenCount(loans, insts[..|insts| - 1]) + if Open(loans, insts[|insts| - 1]) then 1 else 0
  }

  // ----- Buckets by days past due

  datatype Bucket = CURRENT | DPD_1_30 | DPD_31_60 | DPD_61_90 | DPD_90_PLUS

  const BUCKETS: seq<Bucket> := [CURRENT, DPD_1_30, DPD_31_60, DPD_61_90, DPD_90_PLUS]

  function BucketOf(daysPastDue: int): Bucket {
    if daysPastDue <= 0 then CURRENT
    else if daysPastDue <= 30 then DPD_1_30
    else if daysPastDue <= 60 then DPD_31_60
    else if daysPastDue <= 90 then DPD_61_90
    else DPD_90_PLUS
  }

  /** The rows of one unpaid instalment after the inner join: one for each matching disbursed loan. */
  function JoinOne(loans: seq<Loan>, i: Instalment, today: int): seq<(Bucket, int)> {
    if loans == [] then []
    else
      var l := loans[|loans| - 1];
      var rows := JoinOne(loans[..|loans| - 1], i, today);
      if !i.paid && l.id == i.loanId && Disbursed(l) then rows + [(BucketOf(today - i.dueDay), i.remaining)] else rows
  }

  function Joined(loans: seq<Loan>, insts: seq<Instalment>, today: int): seq<(Bucket, int)> {
    if insts == [] then []
    else Joined(loans, insts[..|insts| - 1], today) + JoinOne(loans, insts[|insts| - 1], today)
  }

  /** The five buckets of the report, in their fixed order. */
  function DpdBuckets(loans: seq<Loan>, insts: seq<Instalment>, today: int): (r: seq<Group<Bucket>>)
    ensures |r| == 5
  {
    var groups := GroupBy(Joined(loans, insts, today));
    seq(5, k requires 0 <= k < 5 => Find(groups, BUCKETS[k]))
  }

  // ----- Breakdown by lender

  /** The subquery: remaining amounts of unpaid instalments, grouped by loan. */
  function UnpaidRows(insts: seq<Instalment>): seq<(nat, int)> {
    if insts == [] then []
    else
      var rows, i := UnpaidRows(insts[..|insts| - 1]), insts[|insts| - 1];
      if i.paid then rows else rows + [(i.loanId, i.remaining)]
  }

  /** The left join: each disbursed loan once, with its pre-aggregated outstanding amount. */
  function LoanRows(loans: seq<Loan>, outstanding: seq<Group<nat>>): seq<(string, int)> {
    if loans == [] then []
    else
      var rows, l := LoanRows(loans[..|loans| - 1], outstanding), loans[|loans| - 1];
      if Disbursed(l) then rows + [(l.lender, Find(outstanding, l.id).sum)] else rows
  }

  function DisbursalRows(loans: seq<Loan>): seq<(string, int)> {
    if loans == [] then []
    else
      var rows, l := DisbursalRows(loans[..|loans| - 1]), loans[|loans| - 1];
      if Disbursed(l) then rows + [(l.lender, OrZero(l.disbursalAmount))] else rows
  }

  function LenderOutstanding(loans: seq<Loan>, insts: seq<Instalment>): seq<Group<string>> {
    GroupBy(LoanRows(loans, GroupBy(UnpaidRows(insts))))
  }

  function LenderDisbursed(loans: seq<Loan>): seq<Group<string>> { GroupBy(DisbursalRows(loans)) }

  // ----- Disbursal totals

  function DisbursedTotal(loans: seq<Loan>): int {
    if loans == [] then 0
    else DisbursedTotal(loans[..|loans| - 1]) + if Disbursed(loans[|loans| - 1]) then OrZero(loans[|loans| - 1].disbursalAmount) else 0
  }

  function DisbursedCount(loans: seq<Loan>): nat {
    if loans == [] then 0 else DisbursedCount(loans[..|loans| - 1]) + if Disbursed(loans[|loans| - 1]) then 1 else 0
  }

  // ----- Grouping conserves counts and sums

  lemma {:induction false} AddToConserves<K>(groups: seq<Group<K>>, key: K, amount: int)
    ensures SumOf(AddTo(groups, key, amount)) == SumOf(groups) + amount
    ensures CountOf(AddTo(groups, key, amount)) == CountOf(groups) + 1
    decreases |groups|
  {
    if groups != [] && groups[0].key != key {
      AddToConserves(groups[1..], key, amount);
    }
  }

  lemma {:induction false} GroupByConserves<K>(rows: seq<(K, int)>)
    ensures SumOf(GroupBy(rows)) == Sum(Amounts(rows))
    ensures CountOf(GroupBy(rows)) == |rows|
    decreases |rows|
  {
    if rows != [] {
      var front, last := rows[..|rows| - 1], rows[|rows| - 1];
      GroupByConserves(front);
      AddToConserves(GroupBy(front), last.0, last.1);
      assert Amounts(rows)[..|rows| - 1] == Amounts(front);
    }
  }

  lemma {:induction false} FindAfterAdd<K>(groups: seq<Group<K>>, key: K, amount: int, k: K)
    ensures Find(AddTo(groups, key, amount), k) ==
            if k == key then Group(k, Find(groups, k).count + 1, Find(groups, k).sum + amount) else Find(groups, k)
    decreases |groups|
  {
    if groups != [] && groups[0].key != key {
      FindAfterAdd(groups[1..], key, amount, k);
    }
  }

  // ----- Buckets lose nothing

  function BucketSum(groups: seq<Group<Bucket>>): int {
    Find(groups, CURRENT).sum + Find(groups, DPD_1_30).sum + Find(groups, DPD_31_60).sum
    + Find(groups, DPD_61_90).sum + Find(groups, DPD_90_PLUS).sum
  }

  function BucketCount(groups: seq<Group<Bucket>>): nat {
    Find(groups, CURRENT).count + Find(groups, DPD_1_30).count + Find(groups, DPD_31_60).count
    + Find(groups, DPD_61_90).count + Find(groups, DPD_90_PLUS).count
  }

  /** One more row adds its amount to exactly one bucket. */
  lemma OneMoreRow(groups: seq<Group<Bucket>>, key: Bucket, amount: int)
    ensures BucketSum(AddTo(groups, key, amount)) == BucketSum(groups) + amount
    ensures BucketCount(AddTo(groups, key, amount)) == BucketCount(groups) + 1
  {
    FindAfterAdd(groups, key, amount, CURRENT);
    FindAfterAdd(groups, key, amount, DPD_1_30);
    FindAfterAdd(groups, key, amount, DPD_31_60);
    FindAfterAdd(groups, key, amount, DPD_61_90);
    FindAfterAdd(groups, key, amount, DPD_90_PLUS);
  }

  lemma {:induction false} BucketsConserve(rows: seq<(Bucket, int)>)
    ensures BucketSum(GroupBy(rows)) == Sum(Amounts(rows)) && BucketCount(GroupBy(rows)) == |rows|
    decreases |rows|
  {
    if rows == [] {
      assert forall k :: Find<Bucket>([], k) == Group(k, 0, 0);
    } else {
      var front, last := rows[..|rows| - 1], rows[|rows| - 1];
      BucketsConserve(front);
      assert Amounts(rows)[..|rows| - 1] == Amounts(front);
      OneMoreRow(GroupBy(front), last.0, last.1);
    }
  }

  // ----- Joins neither lose nor multiply rows

  lemma {:induction false} SumConcat(xs: seq<int>, ys: seq<int>)
    ensures Sum(xs + ys) == Sum(xs) + Sum(ys)
    decreases |ys|
  {
    if ys == [] {
      assert xs + ys == xs;
    } else {
      assert (xs + ys)[..|xs + ys| - 1] == xs + ys[..|ys| - 1];
      SumConcat(xs, ys[..|ys| - 1]);
    }
  }

  lemma HasDisbursedFront(loans: seq<Loan>, id: nat)
    requires loans != []
    ensures HasDisbursedLoan(loans, id) <==>
            HasDisbursedLoan(loans[..|loans| - 1], id) || (loans[|loans| - 1].id == id && Disbursed(loans[|loans| - 1]))
  {
  }

  lemma {:induction false} JoinGivesOneRow(loans: seq<Loan>, i: Instalment, today: int)
    requires UniqueIds(loans)
    ensures JoinOne(loans, i, today) == if Open(loans, i) then [(BucketOf(today - i.dueDay), i.remaining)] else []
    decreases |loans|
  {
    if loans != [] {
      var front, l := loans[..|loans| - 1], loans[|loans| - 1];
      JoinGivesOneRow(front, i, today);
      HasDisbursedFront(loans, i.loanId);
    }
  }

  lemma {:induction false} JoinedTotals(loans: seq<Loan>, insts: seq<Instalment>, today: int)
    requires UniqueIds(loans)
    ensures Sum(Amounts(Joined(loans, insts, today))) == TotalReceivable(loans, insts)
    ensures |Joined(loans, insts, today)| == OpenCount(loans, insts)
    decreases |insts|
  {
    if insts != [] {
      var front, i := insts[..|insts| - 1], insts[|insts| - 1];
      var before, row := Joined(loans, front, today), JoinOne(loans, i, today);
      JoinedTotals(loans, front, today);
      JoinGivesOneRow(loans, i, today);
      assert Amounts(before + row) == Amounts(before) + Amounts(row);
      SumConcat(Amounts(before), Amounts(row));
    }
  }

  // ----- Outstanding by lender

  /** What one instalment adds to the left join: its amount, once for each disbursed loan with its id. */
  function Matches(loans: seq<Loan>, id: nat): nat {
    if loans == [] then 0
    else Matches(loans[..|loans| - 1], id) + if loans[|loans| - 1].id == id && Disbursed(loans[|loans| - 1]) then 1 else 0
  }

  lemma {:induction false} MatchesIsZeroOrOne(loans: seq<Loan>, id: nat)
    requires UniqueIds(loans)
    ensures Matches(loans, id) == if HasDisbursedLoan(loans, id) then 1 else 0
    decreases |loans|
  {
    if loans != [] {
      var front, l := loans[..|loans| - 1], loans[|loans| - 1];
      MatchesIsZeroOrOne(front, id);
      HasDisbursedFront(loans, id);
    }
  }

  lemma {:induction false} OneMoreUnpaid(loans: seq<Loan>, groups: seq<Group<nat>>, id: nat, amount: int)
    ensures Sum(Amounts(LoanRows(loans, AddTo(groups, id, amount)))) == Sum(Amounts(LoanRows(loans, groups))) + amount * Matches(loans, id)
    decreases |loans|
  {
    if loans != [] {
      var front, l := loans[..|loans| - 1], loans[|loans| - 1];
      OneMoreUnpaid(front, groups, id, amount);
      FindAfterAdd(groups, id, amount, l.id);
      if Disbursed(l) {
        AppendAmount(LoanRows(front, groups), (l.lender, Find(groups, l.id).sum));
        AppendAmount(LoanRows(front, AddTo(groups, id, amount)), (l.lender, Find(AddTo(groups, id, amount), l.id).sum));
      }
      assert amount * (Matches(front, id) + 1) == amount * Matches(front, id) + amount;
    }
  }

  lemma AppendAmount<K>(rows: seq<(K, int)>, row: (K, int))
    ensures Sum(Amounts(rows + [row])) == Sum(Amounts(rows)) + row.1
  {
    assert Amounts(rows + [row])[..|rows|] == Amounts(rows);
  }

  lemma {:induction false} NoUnpaid(loans: seq<Loan>)
    ensures Sum(Amounts(LoanRows(loans, []))) == 0
    decreases |loans|
  {
    if loans != [] {
      var front, l := loans[..|loans| - 1], loans[|loans| - 1];
      NoUnpaid(front);
      if Disbursed(l) {
        AppendAmount(LoanRows(front, []), (l.lender, 0));
      }
    }
  }

  lemma {:induction false} OutstandingIsReceivable(loans: seq<Loan>, insts: seq<Instalment>)
    requires UniqueIds(loans)
    ensures Sum(Amounts(LoanRows(loans, GroupBy(UnpaidRows(insts))))) == TotalReceivable(loans, insts)
    decreases |insts|
  {
    if insts == [] {
      NoUnpaid(loans);
    } else {
      var front, i := insts[..|insts| - 1], insts[|insts| - 1];
      OutstandingIsReceivable(loans, front);
      if !i.paid {
        var rows := UnpaidRows(front);
        assert (rows + [(i.loanId, i.remaining)])[..|rows|] == rows;
        OneMoreUnpaid(loans, GroupBy(rows), i.loanId, i.remaining);
        MatchesIsZeroOrOne(loans, i.loanId);
      } else {
        assert UnpaidRows(insts) == UnpaidRows(front);
      }
    }
  }

  lemma {:induction false} DisbursalRowTotals(loans: seq<Loan>)
    ensures Sum(Amounts(DisbursalRows(loans))) == DisbursedTotal(loans)
    ensures |DisbursalRows(loans)| == DisbursedCount(loans)
    decreases |loans|
  {
    if loans != [] {
      var front, l := loans[..|loans| - 1], loans[|loans| - 1];
      DisbursalRowTotals(front);
      if Disbursed(l) {
        AppendAmount(DisbursalRows(front), (l.lender, OrZero(l.disbursalAmount)));
      }
    }
  }

  // ----- Agreement of the report

  function Total5(r: seq<Group<Bucket>>): int
    requires |r| == 5
  {
    r[0].sum + r[1].sum + r[2].sum + r[3].sum + r[4].sum
  }

  function Count5(r: seq<Group<Bucket>>): nat
    requires |r| == 5
  {
    r[0].count + r[1].count + r[2].count + r[3].count + r[4].count
  }

  /** Bucket amounts, portfolio receivable and per-lender outstanding have the same sum; bucket counts are the open instalments. */
  lemma OutstandingAgrees(loans: seq<Loan>, insts: seq<Instalment>, today: int)
    requires UniqueIds(loans)
    ensures Total5(DpdBuckets(loans, insts, today)) == TotalReceivable(loans, insts)
    ensures SumOf(LenderOutstanding(loans, insts)) == TotalReceivable(loans, insts)
    ensures Count5(DpdBuckets(loans, insts, today)) == OpenCount(loans, insts)
  {
    var rows := Joined(loans, insts, today);
    BucketsConserve(rows);
    JoinedTotals(loans, insts, today);
    OutstandingIsReceivable(loans, insts);
    GroupByConserves(LoanRows(loans, GroupBy(UnpaidRows(insts))));
  }

  /** Per-lender disbursed counts and amounts add up to the disbursal totals. */
  lemma DisbursalsAgree(loans: seq<Loan>)
    ensures SumOf(LenderDisbursed(loans)) == DisbursedTotal(loans)
    ensures CountOf(LenderDisbursed(loans)) == DisbursedCount(loans)
  {
    DisbursalRowTotals(loans);
    GroupByConserves(DisbursalRows(loans));
  }

  ghost predicate DistinctKeys<K>(groups: seq<Group<K>>) {
    forall m, n :: 0 <= m < n < |groups| ==> groups[m].key != groups[n].key
  }

  ghost predicate HasKey<K>(groups: seq<Group<K>>, key: K) { exists k :: 0 <= k < |groups| && groups[k].key == key }

  /** Every group of a GROUP BY has its own key. */
  lemma {:induction false} GroupKeysAreDistinct<K>(rows: seq<(K, int)>)
    ensures DistinctKeys(GroupBy(rows))
    decreases |rows|
  {
    if rows != [] {
      GroupKeysAreDistinct(rows[..|rows| - 1]);
      AddToKeys(GroupBy(rows[..|rows| - 1]), rows[|rows| - 1].0, rows[|rows| - 1].1);
    }
  }

  lemma KeyInFront<K>(first: Group<K>, rest: seq<Group<K>>)
    requires DistinctKeys(rest) && !HasKey(rest, first.key)
    ensures DistinctKeys([first] + rest)
    ensures forall key :: HasKey([first] + rest, key) <==> key == first.key || HasKey(rest, key)
  {
    var all := [first] + rest;
    forall key ensures HasKey(all, key) <==> key == first.key || HasKey(rest, key) {
      if HasKey(rest, key) {
        var k :| 0 <= k < |rest| && rest[k].key == key;
        assert all[k + 1].key == key;
      }
      if key == first.key { assert all[0].key == key; }
    }
    forall m, n | 0 <= m < n < |all| ensures all[m].key != all[n].key {
      assert rest[n - 1] == all[n];
    }
  }

  lemma TailKeys<K>(groups: seq<Group<K>>)
    requires groups != [] && DistinctKeys(groups)
    ensures DistinctKeys(groups[1..]) && !HasKey(groups[1..], groups[0].key)
    ensures forall key :: HasKey(groups, key) <==> key == groups[0].key || HasKey(groups[1..], key)
  {
    var rest := groups[1..];
    forall key ensures HasKey(groups, key) <==> key == groups[0].key || HasKey(rest, key) {
      if HasKey(rest, key) {
        var k :| 0 <= k < |rest| && rest[k].key == key;
        assert groups[k + 1].key == key;
      }
      if HasKey(groups, key) {
        var k :| 0 <= k < |groups| && groups[k].key == key;
        assert k > 0 ==> rest[k - 1].key == key;
      }
    }
  }

  /** Adding a row keeps the keys distinct, and adds at most its own. */
  lemma {:induction false} AddToKeys<K>(groups: seq<Group<K>>, key: K, amount: int)
    requires DistinctKeys(groups)
    ensures DistinctKeys(AddTo(groups, key, amount))
    ensures forall k :: HasKey(AddTo(groups, key, amount), k) <==> k == key || HasKey(groups, k)
    decreases |groups|
  {
    if groups == [] {
      KeyInFront(Group(key, 1, amount), groups);
    } else {
      TailKeys(groups);
      if groups[0].key == key {
        KeyInFront(Group(key, groups[0].count + 1, groups[0].sum + amount), groups[1..]);
      } else {
        AddToKeys(groups[1..], key, amount);
        KeyInFront(groups[0], AddTo(groups[1..], key, amount));
      }
    }
  }

  // ----- One row per lender

  /** Grouping lists the keys and counts of the rows, whatever their amounts are. */
  lemma {:induction false} AddToIgnoresAmounts<K>(g: seq<Group<K>>, h: seq<Group<K>>, key: K, x: int, y: int)
    requires |g| == |h| && forall k :: 0 <= k < |g| ==> g[k].key == h[k].key && g[k].count == h[k].count
    ensures var g', h' := AddTo(g, key, x), AddTo(h, key, y);
            |g'| == |h'| && forall k :: 0 <= k < |g'| ==> g'[k].key == h'[k].key && g'[k].count == h'[k].count
    decreases |g|
  {
    if g != [] && g[0].key != key {
      AddToIgnoresAmounts(g[1..], h[1..], key, x, y);
    }
  }

  /** The outstanding and the disbursed amounts are listed for the same lenders, in the same order, over the same loans. */
  lemma {:induction false} SameLenders(loans: seq<Loan>, outstanding: seq<Group<nat>>)
    ensures var g, h := GroupBy(LoanRows(loans, outstanding)), GroupBy(DisbursalRows(loans));
            |g| == |h| && forall k :: 0 <= k < |g| ==> g[k].key == h[k].key && g[k].count == h[k].count
    decreases |loans|
  {
    if loans != [] {
      var front, l := loans[..|loans| - 1], loans[|loans| - 1];
      SameLenders(front, outstanding);
      if Disbursed(l) {
        var r, d := LoanRows(front, outstanding), DisbursalRows(front);
        var x, y := (l.lender, Find(outstanding, l.id).sum), (l.lender, OrZero(l.disbursalAmount));
        assert (r + [x])[..|r|] == r && (d + [y])[..|d|] == d;
        AddToIgnoresAmounts(GroupBy(r), GroupBy(d), l.lender, x.1, y.1);
      }
    }
  }

  // ----- What each bucket holds

  /** A group holds exactly the rows with its key. */
  function SumWith<K(==)>(rows: seq<(K, int)>, key: K): int {
    if rows == [] then 0
    else SumWith(rows[..|rows| - 1], key) + if rows[|rows| - 1].0 == key then rows[|rows| - 1].1 else 0
  }

  function CountWith<K(==)>(rows: seq<(K, int)>, key: K): nat {
    if rows == [] then 0 else CountWith(rows[..|rows| - 1], key) + if rows[|rows| - 1].0 == key then 1 else 0
  }

  lemma {:induction false} GroupHoldsItsRows<K>(rows: seq<(K, int)>, key: K)
    ensures Find(GroupBy(rows), key) == Group(key, CountWith(rows, key), SumWith(rows, key))
    decreases |rows|
  {
    if rows != [] {
      GroupHoldsItsRows(rows[..|rows| - 1], key);
      FindAfterAdd(GroupBy(rows[..|rows| - 1]), rows[|rows| - 1].0, rows[|rows| - 1].1, key);
    }
  }

  /** The remaining amount of the open instalments that are between two numbers of days past due. */
  function RemainingBetween(loans: seq<Loan>, insts: seq<Instalment>, today: int, lo: int, hi: int): int {
    if insts == [] then 0
    else
      var i := insts[|insts| - 1];
      RemainingBetween(loans, insts[..|insts| - 1], today, lo, hi)
      + if Open(loans, i) && lo <= today - i.dueDay <= hi then i.remaining else 0
  }

  /** How many open instalments those are. */
  function OpenBetween(loans: seq<Loan>, insts: seq<Instalment>, today: int, lo: int, hi: int): nat {
    if insts == [] then 0
    else
      var i := insts[|insts| - 1];
      OpenBetween(loans, insts[..|insts| - 1], today, lo, hi) + if Open(loans, i) && lo <= today - i.dueDay <= hi then 1 else 0
  }

  /** The instalment is in the bucket exactly if its days past due are between lo and hi. */
  ghost predicate Fits(i: Instalment, today: int, b: Bucket, lo: int, hi: int) {
    BucketOf(today - i.dueDay) == b <==> lo <= today - i.dueDay <= hi
  }

  lemma {:induction false} JoinedBetween(loans: seq<Loan>, insts: seq<Instalment>, today: int, b: Bucket, lo: int, hi: int)
    requires UniqueIds(loans)
    requires forall i :: i in insts ==> Fits(i, today, b, lo, hi)
    ensures SumWith(Joined(loans, insts, today), b) == RemainingBetween(loans, insts, today, lo, hi)
    ensures CountWith(Joined(loans, insts, today), b) == OpenBetween(loans, insts, today, lo, hi)
    decreases |insts|
  {
    if insts != [] {
      assert forall i :: i in insts[..|insts| - 1] ==> i in insts;
      JoinedBetween(loans, insts[..|insts| - 1], today, b, lo, hi);
      JoinedStep(loans, insts, today, b, lo, hi);
    }
  }

  /** One more instalment adds to its bucket exactly if it is open and in the span. */
  lemma JoinedStep(loans: seq<Loan>, insts: seq<Instalment>, today: int, b: Bucket, lo: int, hi: int)
    requires UniqueIds(loans) && insts != [] && Fits(insts[|insts| - 1], today, b, lo, hi)
    ensures var before, after, i := Joined(loans, insts[..|insts| - 1], today), Joined(loans, insts, today), insts[|insts| - 1];
            && SumWith(after, b) == SumWith(before, b) + (if Open(loans, i) && lo <= today - i.dueDay <= hi then i.remaining else 0)
            && CountWith(after, b) == CountWith(before, b) + (if Open(loans, i) && lo <= today - i.dueDay <= hi then 1 else 0)
  {
    var before, i := Joined(loans, insts[..|insts| - 1], today), insts[|insts| - 1];
    JoinedUnfolds(loans, insts, today);
    if Open(loans, i) {
      AppendRow(before, (BucketOf(today - i.dueDay), i.remaining), b);
    } else {
      assert before + [] == before;
    }
  }

  lemma JoinedUnfolds(loans: seq<Loan>, insts: seq<Instalment>, today: int)
    requires UniqueIds(loans) && insts != []
    ensures var front, i := insts[..|insts| - 1], insts[|insts| - 1];
            Joined(loans, insts, today) ==
              Joined(loans, front, today) + if Open(loans, i) then [(BucketOf(today - i.dueDay), i.remaining)] else []
  {
    JoinGivesOneRow(loans, insts[|insts| - 1], today);
  }

  lemma AppendRow<K>(rows: seq<(K, int)>, row: (K, int), key: K)
    ensures SumWith(rows + [row], key) == SumWith(rows, key) + if row.0 == key then row.1 else 0
    ensures CountWith(rows + [row], key) == CountWith(rows, key) + if row.0 == key then 1 else 0
  {
    assert (rows + [row])[..|rows|] == rows;
  }

  ghost predicate Holds(g: Group<Bucket>, loans: seq<Loan>, insts: seq<Instalment>, today: int, lo: int, hi: int) {
    g.sum == RemainingBetween(loans, insts, today, lo, hi) && g.count == OpenBetween(loans, insts, today, lo, hi)
  }

  /** The first bucket is the amount not past due, the last one more than 90 days past due, the middle ones their 30-day spans. */
  lemma BucketsHoldTheirSpans(loans: seq<Loan>, insts: seq<Instalment>, today: int, earliest: int, latest: int)
    requires UniqueIds(loans) && earliest <= 0 && latest >= 91
    requires forall i :: i in insts ==> earliest <= today - i.dueDay <= latest
    ensures var r := DpdBuckets(loans, insts, today);
            && Holds(r[0], loans, insts, today, earliest, 0)
            && Holds(r[1], loans, insts, today, 1, 30)
            && Holds(r[2], loans, insts, today, 31, 60)
            && Holds(r[3], loans, insts, today, 61, 90)
            && Holds(r[4], loans, insts, today, 91, latest)
  {
    var rows := Joined(loans, insts, today);
    GroupHoldsItsRows(rows, CURRENT);
    GroupHoldsItsRows(rows, DPD_1_30);
    GroupHoldsItsRows(rows, DPD_31_60);
    GroupHoldsItsRows(rows, DPD_61_90);
    GroupHoldsItsRows(rows, DPD_90_PLUS);
    JoinedBetween(loans, insts, today, CURRENT, earliest, 0);
    JoinedBetween(loans, insts, today, DPD_1_30, 1, 30);
    JoinedBetween(loans, insts, today, DPD_31_60, 31, 60);
    JoinedBetween(loans, insts, today, DPD_61_90, 61, 90);
    JoinedBetween(loans, insts, today, DPD_90_PLUS, 91, latest);
  }

  // ----- What each lender gets

  /** The loan with this id is disbursed and of this lender. */
  predicate LentBy(loans: seq<Loan>, id: nat, lender: string) {
    exists k :: 0 <= k < |loans| && loans[k].id == id && loans[k].status != OTHER && loans[k].lender == lender
  }

  /** The unpaid instalments of the lender's disbursed loans. */
  function OwedTo(loans: seq<Loan>, insts: seq<Instalment>, lender: string): int {
    if insts == [] then 0
    else
      var i := insts[|insts| - 1];
      OwedTo(loans, insts[..|insts| - 1], lender) + if !i.paid && LentBy(loans, i.loanId, lender) then i.remaining else 0
  }

  function DisbursedBy(loans: seq<Loan>, lender: string): int {
    if loans == [] then 0
    else
      var l := loans[|loans| - 1];
      DisbursedBy(loans[..|loans| - 1], lender)
      + if l.status != OTHER && l.lender == lender && l.disbursalAmount.Some? then l.disbursalAmount.value else 0
  }

  function LoansOf(loans: seq<Loan>, lender: string): nat {
    if loans == [] then 0
    else LoansOf(loans[..|loans| - 1], lender) + if loans[|loans| - 1].status != OTHER && loans[|loans| - 1].lender == lender then 1 else 0
  }

  lemma {:induction false} DisbursalsOfLender(loans: seq<Loan>, lender: string)
    ensures SumWith(DisbursalRows(loans), lender) == DisbursedBy(loans, lender)
    ensures CountWith(DisbursalRows(loans), lender) == LoansOf(loans, lender)
    decreases |loans|
  {
    if loans != [] {
      var front, l := loans[..|loans| - 1], loans[|loans| - 1];
      DisbursalsOfLender(front, lender);
      AppendRow(DisbursalRows(front), (l.lender, OrZero(l.disbursalAmount)), lender);
    }
  }

  lemma LentByFront(loans: seq<Loan>, id: nat, lender: string)
    requires loans != []
    ensures var l := loans[|loans| - 1];
            LentBy(loans, id, lender) <==>
              LentBy(loans[..|loans| - 1], id, lender) || (l.id == id && l.status != OTHER && l.lender == lender)
  {
  }

  /** One more unpaid instalment counts once, for the lender of its loan. */
  lemma {:induction false} OneMoreOwed(loans: seq<Loan>, groups: seq<Group<nat>>, id: nat, amount: int, lender: string)
    requires UniqueIds(loans)
    ensures SumWith(LoanRows(loans, AddTo(groups, id, amount)), lender) ==
            SumWith(LoanRows(loans, groups), lender) + if LentBy(loans, id, lender) then amount else 0
    decreases |loans|
  {
    if loans != [] {
      var front, l := loans[..|loans| - 1], loans[|loans| - 1];
      OneMoreOwed(front, groups, id, amount, lender);
      FindAfterAdd(groups, id, amount, l.id);
      LentByFront(loans, id, lender);
      AppendRow(LoanRows(front, groups), (l.lender, Find(groups, l.id).sum), lender);
      AppendRow(LoanRows(front, AddTo(groups, id, amount)), (l.lender, Find(AddTo(groups, id, amount), l.id).sum), lender);
    }
  }

  lemma {:induction false} NothingOwed(loans: seq<Loan>, lender: string)
    ensures SumWith(LoanRows(loans, []), lender) == 0
    decreases |loans|
  {
    if loans != [] {
      var front, l := loans[..|loans| - 1], loans[|loans| - 1];
      NothingOwed(front, lender);
      AppendRow(LoanRows(front, []), (l.lender, 0), lender);
    }
  }

  lemma {:induction false} OutstandingOfLender(loans: seq<Loan>, insts: seq<Instalment>, lender: string)
    requires UniqueIds(loans)
    ensures SumWith(LoanRows(loans, GroupBy(UnpaidRows(insts))), lender) == OwedTo(loans, insts, lender)
    decreases |insts|
  {
    if insts == [] {
      NothingOwed(loans, lender);
    } else {
      var front, i := insts[..|insts| - 1], insts[|insts| - 1];
      OutstandingOfLender(loans, front, lender);
      if !i.paid {
        var rows := UnpaidRows(front);
        assert (rows + [(i.loanId, i.remaining)])[..|rows|] == rows;
        OneMoreOwed(loans, GroupBy(rows), i.loanId, i.remaining, lender);
      } else {
        assert UnpaidRows(insts) == UnpaidRows(front);
      }
    }
  }

  /** For every lender: what is unpaid on its disbursed loans, what was disbursed, and how many loans those are. */
  lemma LendersHoldTheirLoans(loans: seq<Loan>, insts: seq<Instalment>, lender: string)
    requires UniqueIds(loans)
    ensures Find(LenderOutstanding(loans, insts), lender).sum == OwedTo(loans, insts, lender)
    ensures Find(LenderDisbursed(loans), lender).sum == DisbursedBy(loans, lender)
    ensures Find(LenderDisbursed(loans), lender).count == LoansOf(loans, lender)
  {
    OutstandingOfLender(loans, insts, lender);
    GroupHoldsItsRows(LoanRows(loans, GroupBy(UnpaidRows(insts))), lender);
    DisbursalsOfLender(loans, lender);
    GroupHoldsItsRows(DisbursalRows(loans), lender);
  }
}
