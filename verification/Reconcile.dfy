/** The nightly reconciliation: it reads every table and counts mismatches, repairing nothing. */
module Reconcile {
  import opened Seqs
  import opened Fifo
  import opened Books
  import opened BooksProofs
  import opened Posting
  import opened Finance
  import opened FinanceProofs
  import FinanceDocuments

  datatype Check =
    | BalanceLedger
    | BalanceOutstanding
    | ChargeAllocation(id: int)
    | CreditAllocation(id: int)
    | OrderHasCharge(id: int)
    | PaymentHasCredit(id: int)
    | PaymentHasEntry(id: int)

  datatype Issue = Issue(partnership: int, check: Check)

  /** Partnerships that never traded and have no entries need no projection. */
  predicate NeedsProjection(s: Store, p: int)
    requires p in s.partners
  {
    HasTraded(s.partners[p]) || LedgerTotal(s.books.ledger, p) != 0
  }

  predicate BalanceChecked(s: Store, p: int)
    requires p in s.partners
  {
    p in s.books.balances || NeedsProjection(s, p)
  }

  ghost predicate ChargeOff(b: Books, p: int, c: Charge) {
    c.partnership == p && Total(b.allocations, RowToCharge(p, c.id)) != c.allocatedAmount
  }

  ghost predicate CreditOff(b: Books, p: int, c: Credit) {
    c.partnership == p && Total(b.allocations, RowFromCredit(p, c.id)) != c.allocatedAmount
  }

  /** What each check finds wrong about `p`. */
  ghost predicate Fails(s: Store, p: int, check: Check)
    requires p in s.partners
  {
    var b := s.books;
    match check
    case BalanceLedger =>
      BalanceChecked(s, p) && (p !in b.balances || b.balances[p].balance != LedgerTotal(b.ledger, p))
    case BalanceOutstanding =>
      BalanceChecked(s, p)
      && (p !in b.balances || b.balances[p].balance != Outstanding(b, p) - Unapplied(b, p))
    case ChargeAllocation(id) =>
      exists i :: 0 <= i < |b.charges| && b.charges[i].id == id && ChargeOff(b, p, b.charges[i])
    case CreditAllocation(id) =>
      exists j :: 0 <= j < |b.credits| && b.credits[j].id == id && CreditOff(b, p, b.credits[j])
    case OrderHasCharge(id) =>
      id in s.orders && OwesCharge(s.orders[id], p) && !HasChargeFor(b, p, id)
    case PaymentHasCredit(id) =>
      id in s.payments && IsConfirmed(s.payments[id], p) && !HasCreditFor(b, p, id)
    case PaymentHasEntry(id) =>
      id in s.payments && IsConfirmed(s.payments[id], p) && !HasEntryFor(b, p, id)
  }

  predicate OwesCharge(o: Order, p: int) {
    o.partnership == p && IsDelivered(o) && o.total.Some? && o.total.value > 0
  }

  predicate IsConfirmed(pay: Payment, p: int) { pay.partnership == p && pay.status == PaymentConfirmed }

  // ---------------------------------------------------------------- the job

  /** No issue is raised twice. */
  predicate Once(issues: seq<Issue>) { forall i, j :: 0 <= i < j < |issues| ==> issues[i] != issues[j] }

  predicate Different(ids: seq<int>) { forall i, j :: 0 <= i < j < |ids| ==> ids[i] != ids[j] }

  ghost predicate NoChargeIssue(issues: seq<Issue>, p: int) { forall id :: Issue(p, ChargeAllocation(id)) !in issues }

  ghost predicate NoCreditIssue(issues: seq<Issue>, p: int) { forall id :: Issue(p, CreditAllocation(id)) !in issues }

  ghost predicate NoOrderIssue(issues: seq<Issue>, p: int) { forall id :: Issue(p, OrderHasCharge(id)) !in issues }

  ghost predicate NoPaymentIssue(issues: seq<Issue>, p: int) {
    forall id :: Issue(p, PaymentHasCredit(id)) !in issues && Issue(p, PaymentHasEntry(id)) !in issues
  }

  ghost predicate NoneOf(issues: seq<Issue>, p: int) { forall i :: i in issues ==> i.partnership != p }

  /** Appends an issue when the two sides differ; the counter is the number of issues. */
  method Mismatch(p: int, check: Check, differs: bool, issues: seq<Issue>) returns (r: seq<Issue>)
    ensures r == if differs then issues + [Issue(p, check)] else issues
    ensures Once(issues) && (differs ==> Issue(p, check) !in issues) ==> Once(r)
  {
    r := issues;
    if differs {
      r := r + [Issue(p, check)];
    }
  }

  method CheckBalances(s: Store, p: int, issues: seq<Issue>) returns (r: seq<Issue>)
    requires p in s.partners
    ensures forall i :: i in r <==>
      i in issues || (i.partnership == p && (i.check.BalanceLedger? || i.check.BalanceOutstanding?)
                      && Fails(s, p, i.check))
    ensures Once(issues) && NoneOf(issues, p) ==> Once(r)
  {
    r := issues;
    var b := s.books;
    if BalanceChecked(s, p) {
      r := Mismatch(p, BalanceLedger,
                    p !in b.balances || b.balances[p].balance != LedgerTotal(b.ledger, p), r);
      r := Mismatch(p, BalanceOutstanding,
                    p !in b.balances || b.balances[p].balance != Outstanding(b, p) - Unapplied(b, p), r);
    }
  }

  ghost predicate ChargeFails(b: Books, p: int, n: nat, i: Issue) {
    i.partnership == p && i.check.ChargeAllocation?
    && exists x :: 0 <= x < n <= |b.charges| && b.charges[x].id == i.check.id && ChargeOff(b, p, b.charges[x])
  }

  method CheckCharges(s: Store, p: int, issues: seq<Issue>) returns (r: seq<Issue>)
    requires p in s.partners
    ensures forall i :: i in r <==> i in issues || ChargeFails(s.books, p, |s.books.charges|, i)
    ensures DistinctBy(s.books.charges, ChargeKey()) && Once(issues) && NoChargeIssue(issues, p) ==> Once(r)
  {
    r := issues;
    var b := s.books;
    for n := 0 to |b.charges|
      invariant forall i :: i in r <==> i in issues || ChargeFails(b, p, n, i)
      invariant DistinctBy(b.charges, ChargeKey()) && Once(issues) && NoChargeIssue(issues, p) ==> Once(r)
    {
      var c := b.charges[n];
      ghost var before := r;
      if c.partnership == p {
        r := Mismatch(p, ChargeAllocation(c.id), Total(b.allocations, RowToCharge(p, c.id)) != c.allocatedAmount, r);
      }
      forall i ensures ChargeFails(b, p, n + 1, i) <==>
        ChargeFails(b, p, n, i) || (ChargeOff(b, p, c) && i == Issue(p, ChargeAllocation(c.id))) { }
    }
  }

  ghost predicate CreditFails(b: Books, p: int, n: nat, i: Issue) {
    i.partnership == p && i.check.CreditAllocation?
    && exists x :: 0 <= x < n <= |b.credits| && b.credits[x].id == i.check.id && CreditOff(b, p, b.credits[x])
  }

  method CheckCredits(s: Store, p: int, issues: seq<Issue>) returns (r: seq<Issue>)
    requires p in s.partners
    ensures forall i :: i in r <==> i in issues || CreditFails(s.books, p, |s.books.credits|, i)
    ensures DistinctBy(s.books.credits, CreditKey()) && Once(issues) && NoCreditIssue(issues, p) ==> Once(r)
  {
    r := issues;
    var b := s.books;
    for n := 0 to |b.credits|
      invariant forall i :: i in r <==> i in issues || CreditFails(b, p, n, i)
      invariant DistinctBy(b.credits, CreditKey()) && Once(issues) && NoCreditIssue(issues, p) ==> Once(r)
    {
      var c := b.credits[n];
      if c.partnership == p {
        r := Mismatch(p, CreditAllocation(c.id), Total(b.allocations, RowFromCredit(p, c.id)) != c.allocatedAmount, r);
      }
      forall i ensures CreditFails(b, p, n + 1, i) <==>
        CreditFails(b, p, n, i) || (CreditOff(b, p, c) && i == Issue(p, CreditAllocation(c.id))) { }
    }
  }

  method CheckOrder(s: Store, id: int, p: int, issues: seq<Issue>) returns (r: seq<Issue>)
    requires p in s.partners && id in s.orders
    ensures forall i :: i in r <==>
      i in issues || (i == Issue(p, OrderHasCharge(id)) && Fails(s, p, i.check))
    ensures Once(issues) && Issue(p, OrderHasCharge(id)) !in issues ==> Once(r)
  {
    hide Once;
    r := issues;
    var b := s.books;
    if OwesCharge(s.orders[id], p) {
      var covered := exists i :: 0 <= i < |b.charges| && b.charges[i].kind == OrderCharge
                                 && b.charges[i].sourceId == id && b.charges[i].partnership == p;
      r := Mismatch(p, OrderHasCharge(id), !covered, r);
    }
  }

  method CheckOrders(s: Store, orderIds: seq<int>, p: int, issues: seq<Issue>) returns (r: seq<Issue>)
    requires p in s.partners && Lists(orderIds, s.orders.Keys)
    ensures forall i :: i in r <==>
      i in issues || (i.partnership == p && i.check.OrderHasCharge? && Fails(s, p, i.check))
    ensures Different(orderIds) && Once(issues) && NoOrderIssue(issues, p) ==> Once(r)
  {
    hide Once;
    r := issues;
    for n := 0 to |orderIds|
      invariant forall i :: i in r <==>
        i in issues
        || (i.partnership == p && i.check.OrderHasCharge? && i.check.id in orderIds[..n] && Fails(s, p, i.check))
      invariant Different(orderIds) && Once(issues) && NoOrderIssue(issues, p) ==> Once(r)
    {
      var id := orderIds[n];
      assert id in orderIds;
      assert Different(orderIds) ==> id !in orderIds[..n];
      r := CheckOrder(s, id, p, r);
      assert orderIds[..n + 1] == orderIds[..n] + [id];
    }
    assert orderIds[..|orderIds|] == orderIds;
  }

  method CheckPayment(s: Store, id: int, p: int, issues: seq<Issue>) returns (r: seq<Issue>)
    requires p in s.partners && id in s.payments
    ensures forall i :: i in r <==>
      i in issues || (i.partnership == p && (i.check.PaymentHasCredit? || i.check.PaymentHasEntry?)
                      && i.check.id == id && Fails(s, p, i.check))
    ensures Once(issues) && Issue(p, PaymentHasCredit(id)) !in issues && Issue(p, PaymentHasEntry(id)) !in issues
            ==> Once(r)
  {
    hide Once, BalanceChecked, ChargeOff, CreditOff, OwesCharge;
    r := issues;
    var b := s.books;
    if IsConfirmed(s.payments[id], p) {
      var credited := exists j :: 0 <= j < |b.credits| && b.credits[j].kind == PaymentCredit
                                  && b.credits[j].sourceId == id && b.credits[j].partnership == p;
      var entered := exists k :: 0 <= k < |b.ledger| && b.ledger[k].entryType == PaymentEntry
                                 && b.ledger[k].sourceId == id && b.ledger[k].partnership == p;
      r := Mismatch(p, PaymentHasCredit(id), !credited, r);
      r := Mismatch(p, PaymentHasEntry(id), !entered, r);
    }
  }

  method CheckPayments(s: Store, paymentIds: seq<int>, p: int, issues: seq<Issue>) returns (r: seq<Issue>)
    requires p in s.partners && Lists(paymentIds, s.payments.Keys)
    ensures forall i :: i in r <==>
      i in issues || (i.partnership == p && (i.check.PaymentHasCredit? || i.check.PaymentHasEntry?)
                      && Fails(s, p, i.check))
    ensures Different(paymentIds) && Once(issues) && NoPaymentIssue(issues, p) ==> Once(r)
  {
    hide Once;
    r := issues;
    for n := 0 to |paymentIds|
      invariant forall i :: i in r <==>
        i in issues || (i.partnership == p && (i.check.PaymentHasCredit? || i.check.PaymentHasEntry?)
                        && i.check.id in paymentIds[..n] && Fails(s, p, i.check))
      invariant Different(paymentIds) && Once(issues) && NoPaymentIssue(issues, p) ==> Once(r)
    {
      var id := paymentIds[n];
      assert id in paymentIds;
      assert Different(paymentIds) ==> id !in paymentIds[..n];
      r := CheckPayment(s, id, p, r);
      assert paymentIds[..n + 1] == paymentIds[..n] + [id];
    }
    assert paymentIds[..|paymentIds|] == paymentIds;
  }

  /** Primary keys: no query returns an id twice. */
  ghost predicate Keyed(s: Store, orderIds: seq<int>, paymentIds: seq<int>) {
    DistinctBy(s.books.charges, ChargeKey()) && DistinctBy(s.books.credits, CreditKey())
    && Different(orderIds) && Different(paymentIds)
  }

  /** All six checks for one partnership: an issue is added exactly for each failing check, and once. */
  method CheckPartner(s: Store, orderIds: seq<int>, paymentIds: seq<int>, p: int, issues: seq<Issue>)
    returns (r: seq<Issue>)
    requires p in s.partners && Lists(orderIds, s.orders.Keys) && Lists(paymentIds, s.payments.Keys)
    ensures forall i :: i in r <==> i in issues || (i.partnership == p && Fails(s, p, i.check))
    ensures Keyed(s, orderIds, paymentIds) && Once(issues) && NoneOf(issues, p) ==> Once(r)
  {
    r := CheckBalances(s, p, issues);
    r := CheckCharges(s, p, r);
    r := CheckCredits(s, p, r);
    r := CheckOrders(s, orderIds, p, r);
    r := CheckPayments(s, paymentIds, p, r);
  }

  /** The job: the issues are exactly the failing checks of the known partnerships, each once, and they are counted. */
  method ReconcileAll(s: Store, partnerIds: seq<int>, orderIds: seq<int>, paymentIds: seq<int>)
    returns (count: nat, issues: seq<Issue>)
    requires Lists(partnerIds, s.partners.Keys) && Lists(orderIds, s.orders.Keys) && Lists(paymentIds, s.payments.Keys)
    ensures count == |issues|
    ensures forall i :: i in issues <==> i.partnership in s.partners && Fails(s, i.partnership, i.check)
    ensures count == 0 <==> forall p, c :: p in s.partners ==> !Fails(s, p, c)
    ensures Keyed(s, orderIds, paymentIds) && Different(partnerIds) ==> Once(issues)
  {
    issues := [];
    for n := 0 to |partnerIds|
      invariant forall i :: i in issues <==>
        i.partnership in s.partners && i.partnership in partnerIds[..n] && Fails(s, i.partnership, i.check)
      invariant Keyed(s, orderIds, paymentIds) && Different(partnerIds) ==> Once(issues)
    {
      var p := partnerIds[n];
      assert p in partnerIds;
      issues := CheckPartner(s, orderIds, paymentIds, p, issues);
      assert partnerIds[..n + 1] == partnerIds[..n] + [p];
    }
    assert partnerIds[..|partnerIds|] == partnerIds;
    count := |issues|;
    if count == 0 {
      forall p, c | p in s.partners ensures !Fails(s, p, c) { assert Issue(p, c) !in issues; }
    } else {
      assert issues[0] in issues;
    }
  }

  // ---------------------------------------------------------------- what the count means

  /** No state that the writer can reach has a mismatch. */
  lemma ReachableIsClean(s: Store, p: int, check: Check)
    requires Reachable(s) && p in s.partners
    ensures !Fails(s, p, check)
  {
    ReachableIsGood(s);
    GoodIsClean(s, p, check);
  }

  lemma GoodIsClean(s: Store, p: int, check: Check)
    requires StoreInv(s) && p in s.partners
    ensures !Fails(s, p, check)
  {
    assert MoneyOk(s.books, p);
    if p !in s.books.balances { NoEntries(s.books, p); }
  }

  lemma NoEntries(b: Books, p: int)
    requires NoStrays(b) && p !in b.balances
    ensures LedgerTotal(b.ledger, p) == 0
  {
    forall i | 0 <= i < |b.ledger| ensures Signed(p)(b.ledger[i]) == 0 { }
    TotalZero(b.ledger, Signed(p));
  }

  /** The records of `p` agree with each other, a missing projection counting as zero. */
  ghost predicate Agree(b: Books, p: int) {
    BalanceOf(b, p) == LedgerTotal(b.ledger, p) == Outstanding(b, p) - Unapplied(b, p)
  }

  ghost predicate SumsOkFor(b: Books, p: int) {
    && (forall i :: 0 <= i < |b.charges| && b.charges[i].partnership == p ==>
          b.charges[i].allocatedAmount == Total(b.allocations, RowToCharge(p, b.charges[i].id)))
    && (forall j :: 0 <= j < |b.credits| && b.credits[j].partnership == p ==>
          b.credits[j].allocatedAmount == Total(b.allocations, RowFromCredit(p, b.credits[j].id)))
  }

  /** Every delivered order with a total has its charge, every confirmed payment its credit and its entry. */
  ghost predicate SourcesCovered(s: Store, p: int) {
    var b := s.books;
    && (forall o :: o in s.orders && s.orders[o].partnership == p && s.orders[o].total.Some?
                    && s.orders[o].total.value > 0 && s.orders[o].status in {Delivered, Disputed, Completed} ==>
          exists i :: 0 <= i < |b.charges| && b.charges[i].kind == OrderCharge && b.charges[i].sourceId == o
                      && b.charges[i].partnership == p)
    && (forall id :: id in s.payments && s.payments[id].partnership == p
                     && s.payments[id].status == PaymentConfirmed ==>
          && (exists j :: 0 <= j < |b.credits| && b.credits[j].kind == PaymentCredit && b.credits[j].sourceId == id
                          && b.credits[j].partnership == p)
          && (exists k :: 0 <= k < |b.ledger| && b.ledger[k].entryType == PaymentEntry && b.ledger[k].sourceId == id
                          && b.ledger[k].partnership == p))
  }

  /**
   For any tables at all: a partnership without a mismatch has its allocation sums and its source
   coverage in order, and if its balance was compared its money records agree. When it was not, because it
   has no projection, never traded and its entries cancel out, its open items were not looked at.
   */
  lemma CleanMeans(s: Store, p: int)
    requires p in s.partners && forall c :: !Fails(s, p, c)
    ensures SumsOkFor(s.books, p) && SourcesCovered(s, p)
    ensures BalanceChecked(s, p) ==> Agree(s.books, p)
    ensures !BalanceChecked(s, p) ==> (Agree(s.books, p) <==> Outstanding(s.books, p) == Unapplied(s.books, p))
  {
    var b := s.books;
    assert !Fails(s, p, BalanceLedger) && !Fails(s, p, BalanceOutstanding);
    forall i | 0 <= i < |b.charges| && b.charges[i].partnership == p
      ensures b.charges[i].allocatedAmount == Total(b.allocations, RowToCharge(p, b.charges[i].id))
    {
      assert !Fails(s, p, ChargeAllocation(b.charges[i].id));
    }
    forall j | 0 <= j < |b.credits| && b.credits[j].partnership == p
      ensures b.credits[j].allocatedAmount == Total(b.allocations, RowFromCredit(p, b.credits[j].id))
    {
      assert !Fails(s, p, CreditAllocation(b.credits[j].id));
    }
    forall o | o in s.orders && OwesCharge(s.orders[o], p) ensures HasChargeFor(b, p, o) {
      assert !Fails(s, p, OrderHasCharge(o));
    }
    forall id | id in s.payments && IsConfirmed(s.payments[id], p)
      ensures HasCreditFor(b, p, id) && HasEntryFor(b, p, id)
    {
      assert !Fails(s, p, PaymentHasCredit(id)) && !Fails(s, p, PaymentHasEntry(id));
    }
  }

  /**
   And exactly that is looked at: a partnership shows no mismatch if and only if its sums and its coverage are in
   order and, when it has a projection, has traded or has entries that do not cancel out, its projection
   exists and equals both its ledger and its open items.
   */
  lemma CleanExactly(s: Store, p: int)
    requires p in s.partners
    ensures var b := s.books;
            var compared := p in b.balances || s.partners[p] in {Active, Suspended, Terminated}
                            || LedgerTotal(b.ledger, p) != 0;
            (forall c :: !Fails(s, p, c)) <==>
              && SumsOkFor(b, p) && SourcesCovered(s, p)
              && (compared ==>
                    && p in b.balances && b.balances[p].balance == LedgerTotal(b.ledger, p)
                    && b.balances[p].balance == Outstanding(b, p) - Unapplied(b, p))
  {
    hide Total, LedgerTotal, Outstanding, Unapplied;
    if forall c :: !Fails(s, p, c) {
      CleanMeans(s, p);
      assert !Fails(s, p, BalanceLedger) && !Fails(s, p, BalanceOutstanding);
    }
  }

  function WithCharge(s: Store, c: Charge): Store {
    s.(books := s.books.(charges := s.books.charges + [c]))
  }

  /** A charge entered without posting it: nothing allocated, and no source that the job looks up. */
  ghost predicate Unposted(b: Books, p: int, c: Charge) {
    && c.partnership == p && c.kind != OrderCharge && c.amount > 0 && c.allocatedAmount == 0
    && Total(b.allocations, RowToCharge(p, c.id)) == 0
  }

  /**
   Exactly when the balance is not compared is a clean report no proof of agreement: an unposted charge
   leaves an uncompared partnership as clean as it was, and is reported for a compared one.
   */
  lemma UnpostedChargeIsFound(s: Store, p: int, c: Charge)
    requires p in s.partners && (forall k :: !Fails(s, p, k)) && Agree(s.books, p) && Unposted(s.books, p, c)
    ensures !Agree(WithCharge(s, c).books, p)
    ensures (exists k :: Fails(WithCharge(s, c), p, k)) <==> BalanceChecked(s, p)
  {
    var z := WithCharge(s, c);
    TotalSnoc(s.books.charges, c, ChargeLeft(p));
    if BalanceChecked(s, p) {
      assert !Fails(s, p, BalanceOutstanding);
      assert Fails(z, p, BalanceOutstanding);
    } else {
      forall k ensures !Fails(z, p, k) { StaysClean(s, p, c, k); }
    }
  }

  lemma StaysClean(s: Store, p: int, c: Charge, k: Check)
    requires p in s.partners && !Fails(s, p, k) && !BalanceChecked(s, p) && Unposted(s.books, p, c)
    ensures !Fails(WithCharge(s, c), p, k)
  {
    var z := WithCharge(s, c);
    match k
    case OrderHasCharge(id) =>
      if HasChargeFor(s.books, p, id) {
        var i :| 0 <= i < |s.books.charges| && s.books.charges[i].kind == OrderCharge
                 && s.books.charges[i].sourceId == id && s.books.charges[i].partnership == p;
        assert z.books.charges[i] == s.books.charges[i];
      }
    case ChargeAllocation(id) =>
      forall i | 0 <= i < |z.books.charges| && z.books.charges[i].id == id
        ensures !ChargeOff(z.books, p, z.books.charges[i])
      {
        if i < |s.books.charges| { assert !ChargeOff(s.books, p, s.books.charges[i]); }
      }
    case _ =>
  }

  /** The blind spot is real: an unposted charge of an invited partnership goes unreported. */
  lemma BlindSpot()
    ensures exists s: Store, p: int :: p in s.partners && (forall c :: !Fails(s, p, c)) && !Agree(s.books, p)
  {
    var charge := Charge(1, 7, AdjustmentCharge, 1, 500, 0, 0, 0, Unpaid, None);
    var s := Start().(partners := map[7 := Pending], books := Start().books.(charges := [charge]));
    TotalSnoc([], charge, ChargeLeft(7));
    assert [] + [charge] == [charge];
    forall c ensures !Fails(s, 7, c) { }
    assert 7 in s.partners && !Agree(s.books, 7);
  }

  function WithTotal(s: Store, order: int, total: int): Store
    requires order in s.orders
  {
    s.(orders := s.orders[order := s.orders[order].(total := Some(total))])
  }

  lemma SameAnswer(s: Store, order: int, total: int, p: int, c: Check)
    requires p in s.partners && order in s.orders
    requires OwesCharge(s.orders[order], s.orders[order].partnership) && total > 0
    ensures Fails(WithTotal(s, order, total), p, c) <==> Fails(s, p, c)
  {
  }

  /**
   The job looks for the rows of a document, not for its amount: whatever total a delivered order is given
   behind its posting, every check answers as before, while what the documents add up to moves by the
   difference.
   */
  lemma AmountsAreNotCompared(s: Store, order: int, total: int, p: int)
    requires p in s.partners && order in s.orders
    requires OwesCharge(s.orders[order], s.orders[order].partnership) && total > 0
    ensures forall c :: Fails(WithTotal(s, order, total), p, c) <==> Fails(s, p, c)
    ensures FinanceDocuments.DocumentTotal(WithTotal(s, order, total), p) - FinanceDocuments.DocumentTotal(s, p)
         == if s.orders[order].partnership == p then total - s.orders[order].total.value else 0
  {
    hide Fails, FinanceDocuments.MapSum;
    forall c ensures Fails(WithTotal(s, order, total), p, c) <==> Fails(s, p, c) {
      SameAnswer(s, order, total, p, c);
    }
    var o := s.orders[order].(total := Some(total));
    FinanceDocuments.MapSumUpdate(s.orders, order, o, FinanceDocuments.OrderOwes(p));
  }

  /** An order of a hundred, delivered, whose charge, entry and projection all say fifty. */
  function HalfPosted(): Store {
    Start().(partners := map[7 := Active],
             orders := map[3 := Order(7, Some(100), 0, Delivered, 0)],
             books := Books([Charge(1, 7, OrderCharge, 3, 50, 0, 0, 0, Unpaid, None)], [], [],
                            [Entry(7, ChargeEntry, 3, 50, 50)], map[7 := Projection(50, 2)]))
  }

  lemma HalfPostedSums()
    ensures Outstanding(HalfPosted().books, 7) == LedgerTotal(HalfPosted().books.ledger, 7) == 50
  {
    var b := HalfPosted().books;
    TotalSnoc([], b.charges[0], ChargeLeft(7));
    TotalSnoc([], b.ledger[0], Signed(7));
    assert [] + b.charges == b.charges && [] + b.ledger == b.ledger;
  }

  lemma NothingAddsUp<T(!new)>(f: T -> int)
    ensures FinanceDocuments.MapSum(map[], f) == 0
  {
  }

  lemma HalfPostedOwes()
    ensures FinanceDocuments.DocumentTotal(HalfPosted(), 7) == 100
  {
    hide FinanceDocuments.MapSum;
    var orders := HalfPosted().orders;
    FinanceDocuments.MapSumUpdate(map[], 3, orders[3], FinanceDocuments.OrderOwes(7));
    assert map[][3 := orders[3]] == orders;
    NothingAddsUp(FinanceDocuments.OrderOwes(7));
    NothingAddsUp(FinanceDocuments.AdjustmentOwes(7));
    NothingAddsUp(FinanceDocuments.PaymentPays(7));
    NothingAddsUp(FinanceDocuments.NoteGives(7));
  }

  /** So a partnership may be compared, report nothing, and not owe what its documents say. */
  lemma CleanIsNotDocumented()
    ensures 7 in HalfPosted().partners && BalanceChecked(HalfPosted(), 7)
    ensures forall c :: !Fails(HalfPosted(), 7, c)
    ensures BalanceOf(HalfPosted().books, 7) != FinanceDocuments.DocumentTotal(HalfPosted(), 7)
  {
    HalfPostedSums();
    HalfPostedOwes();
    forall c ensures !Fails(HalfPosted(), 7, c) { }
  }
}
