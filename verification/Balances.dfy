/**
 Two ways to one balance sheet: `balance()` reads one partnership's open rows, `balances_query`
 groups the whole tables and joins. Both are compared with the plain sums of `Books`.
 */
module Balances {
  import opened Seqs
  import opened Fifo
  import opened Books

  datatype Bucket = Current | UpTo30 | UpTo60 | UpTo90 | Older

  function AgingBucket(dueDate: int, today: int): Bucket {
    var days := today - dueDate;
    if days <= 0 then Current
    else if days <= 30 then UpTo30
    else if days <= 60 then UpTo60
    else if days <= 90 then UpTo90
    else Older
  }

  datatype Summary = Summary(
    balance: int, outstanding: int, unapplied: int, overdue: int, limit: int, available: int,
    aging: map<Bucket, int>)

  // ---------------------------------------------------------------- the meaning

  function Aged(p: int, k: Bucket, today: int): Charge -> int {
    (c: Charge) => if c.partnership == p && AgingBucket(c.dueDate, today) == k then c.Remaining() else 0
  }

  function AgedTotal(b: Books, p: int, k: Bucket, today: int): int { Total(b.charges, Aged(p, k, today)) }

  function AgingOf(b: Books, p: int, today: int): map<Bucket, int> {
    map[Current := AgedTotal(b, p, Current, today), UpTo30 := AgedTotal(b, p, UpTo30, today),
        UpTo60 := AgedTotal(b, p, UpTo60, today), UpTo90 := AgedTotal(b, p, UpTo90, today),
        Older := AgedTotal(b, p, Older, today)]
  }

  /** What both readers must report for `p`. */
  function SummaryOf(b: Books, p: int, today: int, limit: int): Summary {
    var aging := AgingOf(b, p, today);
    Summary(BalanceOf(b, p), Outstanding(b, p), Unapplied(b, p),
            aging[UpTo30] + aging[UpTo60] + aging[UpTo90] + aging[Older],
            limit, limit - BalanceOf(b, p), aging)
  }

  /** The five buckets partition the outstanding amount. */
  lemma BucketsPartition(b: Books, p: int, today: int)
    ensures AgedTotal(b, p, Current, today) + AgedTotal(b, p, UpTo30, today) + AgedTotal(b, p, UpTo60, today)
          + AgedTotal(b, p, UpTo90, today) + AgedTotal(b, p, Older, today) == Outstanding(b, p)
  {
    var f := (c: Charge) => Aged(p, Current, today)(c) + Aged(p, UpTo30, today)(c);
    var g := (c: Charge) => f(c) + Aged(p, UpTo60, today)(c);
    var h := (c: Charge) => g(c) + Aged(p, UpTo90, today)(c);
    TotalAdd(b.charges, Aged(p, Current, today), Aged(p, UpTo30, today), f);
    TotalAdd(b.charges, f, Aged(p, UpTo60, today), g);
    TotalAdd(b.charges, g, Aged(p, UpTo90, today), h);
    TotalAdd(b.charges, h, Aged(p, Older, today), ChargeLeft(p));
  }

  /** The table constraints on the two amounts of every row. */
  ghost predicate AmountsOk(b: Books) {
    && (forall i :: 0 <= i < |b.charges| ==> GoodAmounts(b.charges[i].amount, b.charges[i].allocatedAmount))
    && (forall j :: 0 <= j < |b.credits| ==> GoodAmounts(b.credits[j].amount, b.credits[j].allocatedAmount))
  }

  /** The buckets by days past due, and what is overdue: all that is left of charges due before today. */
  lemma BucketDays(dueDate: int, today: int)
    ensures AgingBucket(dueDate, today) == Current <==> today <= dueDate
    ensures AgingBucket(dueDate, today) == UpTo30 <==> dueDate + 1 <= today <= dueDate + 30
    ensures AgingBucket(dueDate, today) == UpTo60 <==> dueDate + 31 <= today <= dueDate + 60
    ensures AgingBucket(dueDate, today) == UpTo90 <==> dueDate + 61 <= today <= dueDate + 90
    ensures AgingBucket(dueDate, today) == Older <==> dueDate + 90 < today
  {
  }

  function PastDue(p: int, today: int): Charge -> int {
    (c: Charge) => if c.partnership == p && c.dueDate < today then c.amount - c.allocatedAmount else 0
  }

  lemma SummaryMeans(b: Books, p: int, today: int, limit: int)
    ensures SummaryOf(b, p, today, limit).overdue == Total(b.charges, PastDue(p, today))
    ensures SummaryOf(b, p, today, limit).available + BalanceOf(b, p) == limit
    ensures SummaryOf(b, p, today, limit).aging[Current] + SummaryOf(b, p, today, limit).overdue == Outstanding(b, p)
  {
    hide Total;
    var f := (c: Charge) => Aged(p, UpTo30, today)(c) + Aged(p, UpTo60, today)(c);
    var g := (c: Charge) => f(c) + Aged(p, UpTo90, today)(c);
    TotalAdd(b.charges, Aged(p, UpTo30, today), Aged(p, UpTo60, today), f);
    TotalAdd(b.charges, f, Aged(p, UpTo90, today), g);
    TotalAdd(b.charges, g, Aged(p, Older, today), PastDue(p, today));
    BucketsPartition(b, p, today);
  }

  // ---------------------------------------------------------------- balance()

  function InBucket(k: Bucket, today: int): ChargeInput -> int {
    (c: ChargeInput) => if AgingBucket(c.dueDate, today) == k then c.Remaining() else 0
  }

  /** The aging dictionary, filled charge by charge. */
  method Aging(charges: seq<ChargeInput>, today: int) returns (result: map<Bucket, int>)
    ensures result.Keys == {Current, UpTo30, UpTo60, UpTo90, Older}
    ensures forall k :: k in result ==> result[k] == Total(charges, InBucket(k, today))
  {
    result := map[Current := 0, UpTo30 := 0, UpTo60 := 0, UpTo90 := 0, Older := 0];
    for n := 0 to |charges|
      invariant result.Keys == {Current, UpTo30, UpTo60, UpTo90, Older}
      invariant forall k :: k in result ==> result[k] == Total(charges[..n], InBucket(k, today))
    {
      var k := AgingBucket(charges[n].dueDate, today);
      assert charges[..n + 1][..n] == charges[..n];
      result := result[k := result[k] + charges[n].Remaining()];
    }
    assert charges[..|charges|] == charges;
  }

  function LeftToPay(): Charge -> int { (c: Charge) => c.Remaining() }

  function LeftToUse(): Credit -> int { (c: Credit) => c.Remaining() }

  lemma OpenRowsAreAll(b: Books, p: int)
    requires AmountsOk(b)
    ensures Total(Filter(b.charges, IsOpenCharge(p)), LeftToPay()) == Outstanding(b, p)
    ensures Total(Filter(b.credits, IsOpenCredit(p)), LeftToUse()) == Unapplied(b, p)
  {
    TotalFilter(b.charges, IsOpenCharge(p), LeftToPay(), ChargeLeft(p));
    TotalFilter(b.credits, IsOpenCredit(p), LeftToUse(), CreditLeft(p));
  }

  lemma {:induction false} TotalInputs(rows: seq<Charge>, inputs: seq<ChargeInput>, k: Bucket, today: int)
    requires |rows| == |inputs| && forall i :: 0 <= i < |rows| ==> inputs[i] == ChargeInputOf(rows[i])
    ensures Total(inputs, InBucket(k, today))
         == Total(rows, (c: Charge) => if AgingBucket(c.dueDate, today) == k then c.Remaining() else 0)
  {
    if rows != [] {
      TotalInputs(rows[..|rows| - 1], inputs[..|rows| - 1], k, today);
    }
  }

  lemma OpenRowsAge(b: Books, p: int, k: Bucket, today: int)
    requires AmountsOk(b)
    ensures Total(OpenChargeInputs(b, p), InBucket(k, today)) == AgedTotal(b, p, k, today)
  {
    TotalInputs(Filter(b.charges, IsOpenCharge(p)), OpenChargeInputs(b, p), k, today);
    TotalFilter(b.charges, IsOpenCharge(p),
                (c: Charge) => if AgingBucket(c.dueDate, today) == k then c.Remaining() else 0, Aged(p, k, today));
  }

  lemma BucketsAreAging(b: Books, p: int, today: int, buckets: map<Bucket, int>)
    requires AmountsOk(b)
    requires buckets.Keys == {Current, UpTo30, UpTo60, UpTo90, Older}
    requires forall k :: k in buckets ==> buckets[k] == Total(OpenChargeInputs(b, p), InBucket(k, today))
    ensures buckets == AgingOf(b, p, today)
  {
    hide Total, Filter, AgingBucket, OpenChargeInputs, Aged;
    forall k | k in buckets ensures buckets[k] == AgedTotal(b, p, k, today) { OpenRowsAge(b, p, k, today); }
    assert AgingOf(b, p, today).Keys == buckets.Keys;
  }

  /** Open rows only, as the service selects them. */
  method Balance(b: Books, p: int, today: int, limit: int) returns (r: Summary)
    requires AmountsOk(b)
    ensures r == SummaryOf(Lock(b, p), p, today, limit)
  {
    hide Total, Filter, AgingBucket, OpenChargeInputs, Aged;
    var locked := Lock(b, p);
    var charges := Filter(locked.charges, IsOpenCharge(p));
    var credits := Filter(locked.credits, IsOpenCredit(p));
    var outstanding := Total(charges, LeftToPay());
    var unapplied := Total(credits, LeftToUse());
    var buckets := Aging(OpenChargeInputs(locked, p), today);
    OpenRowsAreAll(locked, p);
    BucketsAreAging(locked, p, today, buckets);
    var overdue := buckets[UpTo30] + buckets[UpTo60] + buckets[UpTo90] + buckets[Older];
    var balance := locked.balances[p].balance;
    r := Summary(balance, outstanding, unapplied, overdue, limit, limit - balance, buckets);
  }

  // ---------------------------------------------------------------- balances_query

  /** The date predicate of each grouped column. */
  predicate ColumnHolds(k: Bucket, dueDate: int, today: int) {
    match k
    case Current => dueDate >= today
    case UpTo30 => dueDate < today && dueDate >= today - 30
    case UpTo60 => dueDate < today - 30 && dueDate >= today - 60
    case UpTo90 => dueDate < today - 60 && dueDate >= today - 90
    case Older => dueDate < today - 90
  }

  /** The predicates are the buckets: every date satisfies exactly the one of its bucket. */
  lemma ColumnsAreBuckets(k: Bucket, dueDate: int, today: int)
    ensures ColumnHolds(k, dueDate, today) <==> AgingBucket(dueDate, today) == k
  {
  }

  datatype ChargeGroup = ChargeGroup(outstanding: int, columns: map<Bucket, int>)

  function Column(c: Charge, k: Bucket, today: int): int {
    if ColumnHolds(k, c.dueDate, today) then c.Remaining() else 0
  }

  function EmptyColumns(): map<Bucket, int> { map[Current := 0, UpTo30 := 0, UpTo60 := 0, UpTo90 := 0, Older := 0] }

  /** A grouped column, a missing group counting as nothing. */
  function ColumnOf(groups: map<int, ChargeGroup>, p: int, k: Bucket): int {
    if p in groups && k in groups[p].columns then groups[p].columns[k] else 0
  }

  function GroupTotal(groups: map<int, ChargeGroup>, p: int): int {
    if p in groups then groups[p].outstanding else 0
  }

  /** The charges, all of them, grouped by partnership. */
  function GroupCharges(rows: seq<Charge>, today: int): map<int, ChargeGroup> {
    if rows == [] then map[]
    else
      var rest := GroupCharges(rows[..|rows| - 1], today);
      var c := rows[|rows| - 1];
      rest[c.partnership := ChargeGroup(
        GroupTotal(rest, c.partnership) + c.Remaining(),
        map k | k in EmptyColumns() :: ColumnOf(rest, c.partnership, k) + Column(c, k, today))]
  }

  function GroupCredits(rows: seq<Credit>): map<int, int> {
    if rows == [] then map[]
    else
      var rest := GroupCredits(rows[..|rows| - 1]);
      var c := rows[|rows| - 1];
      rest[c.partnership := (if c.partnership in rest then rest[c.partnership] else 0) + c.Remaining()]
  }

  /** One row of the query: every side aggregated before the outer joins. */
  function QueryRow(b: Books, p: int, today: int, limit: int): Summary {
    var charges, credits := GroupCharges(b.charges, today), GroupCredits(b.credits);
    var balance := if p in b.balances then b.balances[p].balance else 0;
    Summary(balance, GroupTotal(charges, p), if p in credits then credits[p] else 0,
            ColumnOf(charges, p, UpTo30) + ColumnOf(charges, p, UpTo60) + ColumnOf(charges, p, UpTo90)
            + ColumnOf(charges, p, Older),
            limit, limit - balance,
            map[Current := ColumnOf(charges, p, Current), UpTo30 := ColumnOf(charges, p, UpTo30),
                UpTo60 := ColumnOf(charges, p, UpTo60), UpTo90 := ColumnOf(charges, p, UpTo90),
                Older := ColumnOf(charges, p, Older)])
  }

  lemma {:induction false} GroupsAddUp(rows: seq<Charge>, p: int, k: Bucket, today: int)
    ensures GroupTotal(GroupCharges(rows, today), p) == Total(rows, ChargeLeft(p))
    ensures ColumnOf(GroupCharges(rows, today), p, k) == Total(rows, Aged(p, k, today))
  {
    if rows != [] {
      GroupsAddUp(rows[..|rows| - 1], p, k, today);
      ColumnsAreBuckets(k, rows[|rows| - 1].dueDate, today);
      assert k in EmptyColumns();
    }
  }

  lemma {:induction false} CreditGroupsAddUp(rows: seq<Credit>, p: int)
    ensures (if p in GroupCredits(rows) then GroupCredits(rows)[p] else 0) == Total(rows, CreditLeft(p))
  {
    if rows != [] { CreditGroupsAddUp(rows[..|rows| - 1], p); }
  }

  /**
   Whatever is in the tables, the grouped row of a partnership is its plain balance sheet; with
   `Balance` above, the two readers report the same figures (the lock adds a zero projection at most).
   */
  lemma GroupedViewAgrees(b: Books, p: int, today: int, limit: int)
    ensures QueryRow(b, p, today, limit) == SummaryOf(b, p, today, limit)
    ensures SummaryOf(Lock(b, p), p, today, limit) == SummaryOf(b, p, today, limit)
  {
    GroupsAddUp(b.charges, p, Current, today);
    GroupsAddUp(b.charges, p, UpTo30, today);
    GroupsAddUp(b.charges, p, UpTo60, today);
    GroupsAddUp(b.charges, p, UpTo90, today);
    GroupsAddUp(b.charges, p, Older, today);
    CreditGroupsAddUp(b.credits, p);
  }
}
