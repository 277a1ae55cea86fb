/** Whole postings: the financial invariants they keep and the exact effect they have. */
module Posting {
  import opened Seqs
  import opened Fifo
  import opened Books
  import opened BooksProofs

  // ---------------------------------------------------------------- the allocation of a posting

  lemma OpenDistinctCharges(b: Books, p: int)
    requires RowsOk(b)
    ensures DistinctBy(OpenCharges(Sort(OpenChargeInputs(b, p), ChargeBefore())), OpenId())
  {
    var rows := Filter(b.charges, IsOpenCharge(p));
    var inputs := OpenChargeInputs(b, p);
    var sorted := Sort(inputs, ChargeBefore());
    var list := OpenCharges(sorted);
    FilterDistinct(b.charges, IsOpenCharge(p), ChargeKey());
    forall i, j | 0 <= i < j < |inputs| ensures ChargeId()(inputs[i]) != ChargeId()(inputs[j]) {
      assert ChargeKey()(rows[i]) != ChargeKey()(rows[j]);
    }
    PermutationDistinct(inputs, sorted, ChargeId());
    forall i, j | 0 <= i < j < |list| ensures OpenId()(list[i]) != OpenId()(list[j]) {
      assert ChargeId()(sorted[i]) != ChargeId()(sorted[j]);
    }
  }

  lemma OpenListsCharges(b: Books, p: int)
    requires RowsOk(b)
    ensures ListsCharges(b.charges, p, OpenCharges(Sort(OpenChargeInputs(b, p), ChargeBefore())))
  {
    var rows := Filter(b.charges, IsOpenCharge(p));
    var inputs := OpenChargeInputs(b, p);
    var sorted := Sort(inputs, ChargeBefore());
    var list := OpenCharges(sorted);
    OpenDistinctCharges(b, p);
    InMultiset(inputs, sorted);
    forall t | 0 <= t < |list| ensures ListsCharge(b.charges, p, list[t]) {
      assert sorted[t] in inputs;
      var k :| 0 <= k < |inputs| && inputs[k] == sorted[t];
      assert rows[k] in b.charges;
      var i :| 0 <= i < |b.charges| && b.charges[i] == rows[k];
      assert ChargeOk(b.charges[i]);
      assert b.charges[i].id == list[t].id && b.charges[i].Remaining() == list[t].left;
    }
    forall i | 0 <= i < |b.charges| && b.charges[i].partnership == p && b.charges[i].Remaining() > 0
      ensures Mentions(list, b.charges[i].id)
    {
      assert b.charges[i] in rows;
      var k :| 0 <= k < |rows| && rows[k] == b.charges[i];
      assert inputs[k] in sorted;
      var t :| 0 <= t < |sorted| && sorted[t] == inputs[k];
      assert list[t].id == b.charges[i].id;
    }
  }

  lemma OpenDistinctCredits(b: Books, p: int)
    requires RowsOk(b)
    ensures DistinctBy(OpenCredits(Sort(OpenCreditInputs(b, p), CreditBefore())), OpenId())
  {
    var rows := Filter(b.credits, IsOpenCredit(p));
    var inputs := OpenCreditInputs(b, p);
    var sorted := Sort(inputs, CreditBefore());
    var list := OpenCredits(sorted);
    FilterDistinct(b.credits, IsOpenCredit(p), CreditKey());
    forall i, j | 0 <= i < j < |inputs| ensures CreditId()(inputs[i]) != CreditId()(inputs[j]) {
      assert CreditKey()(rows[i]) != CreditKey()(rows[j]);
    }
    PermutationDistinct(inputs, sorted, CreditId());
    forall i, j | 0 <= i < j < |list| ensures OpenId()(list[i]) != OpenId()(list[j]) {
      assert CreditId()(sorted[i]) != CreditId()(sorted[j]);
    }
  }

  lemma OpenListsCredits(b: Books, p: int)
    requires RowsOk(b)
    ensures ListsCredits(b.credits, p, OpenCredits(Sort(OpenCreditInputs(b, p), CreditBefore())))
  {
    var rows := Filter(b.credits, IsOpenCredit(p));
    var inputs := OpenCreditInputs(b, p);
    var sorted := Sort(inputs, CreditBefore());
    var list := OpenCredits(sorted);
    OpenDistinctCredits(b, p);
    InMultiset(inputs, sorted);
    forall t | 0 <= t < |list| ensures ListsCredit(b.credits, p, list[t]) {
      assert sorted[t] in inputs;
      var k :| 0 <= k < |inputs| && inputs[k] == sorted[t];
      assert rows[k] in b.credits;
      var i :| 0 <= i < |b.credits| && b.credits[i] == rows[k];
      assert CreditOk(b.credits[i]);
      assert b.credits[i].id == list[t].id && b.credits[i].Remaining() == list[t].left;
    }
    forall i | 0 <= i < |b.credits| && b.credits[i].partnership == p && b.credits[i].Remaining() > 0
      ensures Mentions(list, b.credits[i].id)
    {
      assert b.credits[i] in rows;
      var k :| 0 <= k < |rows| && rows[k] == b.credits[i];
      assert inputs[k] in sorted;
      var t :| 0 <= t < |sorted| && sorted[t] == inputs[k];
      assert list[t].id == b.credits[i].id;
    }
  }

  /** The rows read for the planner satisfy what it validates. */
  lemma InputsAreValid(b: Books, p: int)
    requires RowsOk(b)
    ensures ValidCharges(OpenChargeInputs(b, p)) && ValidCredits(OpenCreditInputs(b, p))
  {
    var rows, inputs := Filter(b.charges, IsOpenCharge(p)), OpenChargeInputs(b, p);
    FilterDistinct(b.charges, IsOpenCharge(p), ChargeKey());
    forall i, j | 0 <= i < j < |inputs| ensures ChargeId()(inputs[i]) != ChargeId()(inputs[j]) {
      assert ChargeKey()(rows[i]) != ChargeKey()(rows[j]);
    }
    forall c | c in inputs ensures GoodAmounts(c.amount, c.allocatedAmount) {
      var i :| 0 <= i < |inputs| && inputs[i] == c;
      assert rows[i] in b.charges;
      var x :| 0 <= x < |b.charges| && b.charges[x] == rows[i];
      assert ChargeOk(b.charges[x]);
    }
    CreditInputsAreValid(b, p);
  }

  lemma CreditInputsAreValid(b: Books, p: int)
    requires RowsOk(b)
    ensures ValidCredits(OpenCreditInputs(b, p))
  {
    var rows, inputs := Filter(b.credits, IsOpenCredit(p)), OpenCreditInputs(b, p);
    FilterDistinct(b.credits, IsOpenCredit(p), CreditKey());
    forall i, j | 0 <= i < j < |inputs| ensures CreditId()(inputs[i]) != CreditId()(inputs[j]) {
      assert CreditKey()(rows[i]) != CreditKey()(rows[j]);
    }
    forall c | c in inputs ensures GoodAmounts(c.amount, c.allocatedAmount) {
      var i :| 0 <= i < |inputs| && inputs[i] == c;
      assert rows[i] in b.credits;
      var x :| 0 <= x < |b.credits| && b.credits[x] == rows[i];
      assert CreditOk(b.credits[x]);
    }
  }

  /** The allocation run of the service: valid inputs, and afterwards one side of `p` has nothing open. */
  lemma AllocateSettles(b: Books, p: int, now: int)
    requires AllocationInv(b)
    ensures Settled(b, Allocate(b, p, now), p, PlanFor(b, p))
  {
    OpenListsCharges(b, p);
    OpenListsCredits(b, p);
    Settle(b, p, OpenCharges(Sort(OpenChargeInputs(b, p), ChargeBefore())),
           OpenCredits(Sort(OpenCreditInputs(b, p), CreditBefore())), now);
  }

  // ---------------------------------------------------------------- the invariant of the books

  /** Projection = ledger = outstanding - unapplied, and at most one of the last two is not zero. */
  ghost predicate MoneyOk(b: Books, p: int) {
    && BalanceOf(b, p) == LedgerTotal(b.ledger, p) == Outstanding(b, p) - Unapplied(b, p)
    && (Outstanding(b, p) == 0 || Unapplied(b, p) == 0)
    && Outstanding(b, p) >= 0 && Unapplied(b, p) >= 0
  }

  /** Every entry carries the balance of its partnership after itself. */
  ghost predicate LedgerOk(ledger: seq<Entry>) {
    forall k :: 0 <= k < |ledger| ==>
      ledger[k].amount > 0 && ledger[k].balanceAfter == LedgerTotal(ledger[..k + 1], ledger[k].partnership)
  }

  /** A partnership without a projection has no financial rows. */
  ghost predicate NoStrays(b: Books) {
    && (forall i :: 0 <= i < |b.charges| ==> b.charges[i].partnership in b.balances)
    && (forall i :: 0 <= i < |b.credits| ==> b.credits[i].partnership in b.balances)
    && (forall i :: 0 <= i < |b.ledger| ==> b.ledger[i].partnership in b.balances)
  }

  ghost predicate BooksInv(b: Books) {
    AllocationInv(b) && (forall p :: MoneyOk(b, p)) && LedgerOk(b.ledger) && NoStrays(b)
  }

  function Empty(): Books { Books([], [], [], [], map[]) }

  lemma EmptyIsGood()
    ensures BooksInv(Empty())
  {
  }

  lemma LedgerDoesNotTouchRows(a: Books, m: Books)
    requires AllocationInv(a)
    requires m.charges == a.charges && m.credits == a.credits && m.allocations == a.allocations
    ensures AllocationInv(m)
  {
    forall q ensures CountOk(m, q) { assert CountOk(a, q); }
    forall k | 0 <= k < |m.allocations| ensures PairOk(m, m.allocations[k]) {
      assert PairOk(a, a.allocations[k]);
      PairStays(a, m, a.allocations[k]);
    }
  }

  lemma LockKeeps(b: Books, p: int)
    requires BooksInv(b)
    ensures BooksInv(Lock(b, p)) && p in Lock(b, p).balances
    ensures forall q :: BalanceOf(Lock(b, p), q) == BalanceOf(b, q)
    ensures forall q :: Outstanding(Lock(b, p), q) == Outstanding(b, q) && Unapplied(Lock(b, p), q) == Unapplied(b, q)
  {
    hide Total;
    var b' := Lock(b, p);
    LedgerDoesNotTouchRows(b, b');
    forall q ensures MoneyOk(b', q) { assert MoneyOk(b, q); }
  }

  // ---------------------------------------------------------------- adding the item

  lemma AddKeepsRows(b: Books, p: int, item: Item, id: int, sourceId: int, amount: int, now: int)
    requires RowsOk(b) && FreshId(b, item, id) && amount > 0
    ensures RowsOk(AddItem(b, p, item, id, sourceId, amount, now))
  {
  }

  lemma NoRowsYet(b: Books, item: Item, id: int, p: int)
    requires PairsOk(b) && FreshId(b, item, id)
    ensures item.ChargeItem? ==> Total(b.allocations, RowToCharge(p, id)) == 0
    ensures item.CreditItem? ==> Total(b.allocations, RowFromCredit(p, id)) == 0
    ensures forall k :: 0 <= k < |b.allocations| ==>
      (item.ChargeItem? ==> b.allocations[k].chargeId != id) && (item.CreditItem? ==> b.allocations[k].creditId != id)
  {
    forall k | 0 <= k < |b.allocations|
      ensures (item.ChargeItem? ==> b.allocations[k].chargeId != id)
           && (item.CreditItem? ==> b.allocations[k].creditId != id)
    {
      assert PairOk(b, b.allocations[k]);
    }
    if item.ChargeItem? {
      TotalZero(b.allocations, RowToCharge(p, id));
    } else {
      TotalZero(b.allocations, RowFromCredit(p, id));
    }
  }

  lemma AddKeepsSums(b: Books, p: int, item: Item, id: int, sourceId: int, amount: int, now: int)
    requires SumsOk(b) && PairsOk(b) && FreshId(b, item, id)
    ensures SumsOk(AddItem(b, p, item, id, sourceId, amount, now))
    ensures PairsOk(AddItem(b, p, item, id, sourceId, amount, now))
  {
    hide Total;
    var b' := AddItem(b, p, item, id, sourceId, amount, now);
    NoRowsYet(b, item, id, p);
    forall k | 0 <= k < |b'.allocations| ensures PairOk(b', b'.allocations[k]) {
      assert PairOk(b, b.allocations[k]);
      PairStays(b, b', b.allocations[k]);
    }
  }

  lemma AddKeepsCount(b: Books, p: int, item: Item, id: int, sourceId: int, amount: int, now: int, q: int)
    requires CountOk(b, q) && amount > 0
    ensures CountOk(AddItem(b, p, item, id, sourceId, amount, now), q)
  {
    hide Total;
    match item
    case ChargeItem(kind, due) =>
      var c := Charge(id, p, kind, sourceId, amount, due, now, 0, Unpaid, None);
      TotalSnoc(b.charges, c, OneCharge(q));
      TotalSnoc(b.charges, c, FullCharge(q));
    case CreditItem(kind) =>
      var c := Credit(id, p, kind, sourceId, amount, now, 0);
      TotalSnoc(b.credits, c, OneCredit(q));
      TotalSnoc(b.credits, c, FullCredit(q));
  }

  lemma AddMovesMoney(b: Books, p: int, item: Item, id: int, sourceId: int, amount: int, now: int, q: int)
    ensures var b' := AddItem(b, p, item, id, sourceId, amount, now);
            && Outstanding(b', q) == Outstanding(b, q) + (if item.ChargeItem? && q == p then amount else 0)
            && Unapplied(b', q) == Unapplied(b, q) + (if item.CreditItem? && q == p then amount else 0)
  {
    hide Total;
    match item
    case ChargeItem(kind, due) =>
      TotalSnoc(b.charges, Charge(id, p, kind, sourceId, amount, due, now, 0, Unpaid, None), ChargeLeft(q));
    case CreditItem(kind) =>
      TotalSnoc(b.credits, Credit(id, p, kind, sourceId, amount, now, 0), CreditLeft(q));
  }

  lemma AddKeepsAllocation(b: Books, p: int, item: Item, id: int, sourceId: int, amount: int, now: int)
    requires AllocationInv(b) && FreshId(b, item, id) && amount > 0
    ensures AllocationInv(AddItem(b, p, item, id, sourceId, amount, now))
  {
    AddKeepsRows(b, p, item, id, sourceId, amount, now);
    AddKeepsSums(b, p, item, id, sourceId, amount, now);
    forall q ensures CountOk(AddItem(b, p, item, id, sourceId, amount, now), q) {
      AddKeepsCount(b, p, item, id, sourceId, amount, now, q);
    }
  }

  // ---------------------------------------------------------------- the whole posting

  /** What the posting adds to the balance. */
  function Effect(item: Item, amount: int): int { if item.ChargeItem? then amount else -amount }

  function Prepared(b: Books, p: int, item: Item, id: int, sourceId: int, amount: int, now: int): Books {
    PostLedger(AddItem(Lock(b, p), p, item, id, sourceId, amount, now), p, EntryTypeOf(item), sourceId, amount)
  }

  lemma LedgerGrows(ledger: seq<Entry>, e: Entry)
    requires LedgerOk(ledger) && e.amount > 0
    requires e.balanceAfter == LedgerTotal(ledger, e.partnership) + SignedAmount(e)
    ensures LedgerOk(ledger + [e])
    ensures forall q :: LedgerTotal(ledger + [e], q) == LedgerTotal(ledger, q) + Signed(q)(e)
  {
    var all := ledger + [e];
    forall q ensures LedgerTotal(all, q) == LedgerTotal(ledger, q) + Signed(q)(e) { TotalSnoc(ledger, e, Signed(q)); }
    forall k | 0 <= k < |all|
      ensures all[k].amount > 0 && all[k].balanceAfter == LedgerTotal(all[..k + 1], all[k].partnership)
    {
      if k < |ledger| { assert all[..k + 1] == ledger[..k + 1]; } else { assert all[..k + 1] == all; }
    }
  }

  lemma PreparedMoney(b: Books, p: int, item: Item, id: int, sourceId: int, amount: int, now: int, q: int)
    requires MoneyOk(b, q)
    ensures var m := Prepared(b, p, item, id, sourceId, amount, now);
      && BalanceOf(m, q) == LedgerTotal(m.ledger, q) == Outstanding(m, q) - Unapplied(m, q)
      && BalanceOf(m, q) == BalanceOf(b, q) + (if q == p then Effect(item, amount) else 0)
      && (q != p ==> Outstanding(m, q) == Outstanding(b, q) && Unapplied(m, q) == Unapplied(b, q))
  {
    hide Total;
    var l := Lock(b, p);
    var m := Prepared(b, p, item, id, sourceId, amount, now);
    TotalSnoc(l.ledger, m.ledger[|l.ledger|], Signed(q));
    AddMovesMoney(l, p, item, id, sourceId, amount, now, q);
  }

  lemma PreparedAllocation(b: Books, p: int, item: Item, id: int, sourceId: int, amount: int, now: int)
    requires AllocationInv(b) && FreshId(b, item, id) && amount > 0
    ensures AllocationInv(Prepared(b, p, item, id, sourceId, amount, now))
  {
    var l := Lock(b, p);
    LedgerDoesNotTouchRows(b, l);
    AddKeepsAllocation(l, p, item, id, sourceId, amount, now);
    LedgerDoesNotTouchRows(AddItem(l, p, item, id, sourceId, amount, now),
                           Prepared(b, p, item, id, sourceId, amount, now));
  }

  lemma PreparedLedger(b: Books, p: int, item: Item, id: int, sourceId: int, amount: int, now: int)
    requires LedgerOk(b.ledger) && NoStrays(b) && MoneyOk(b, p) && amount > 0
    ensures var m := Prepared(b, p, item, id, sourceId, amount, now); LedgerOk(m.ledger) && NoStrays(m)
  {
    hide Total;
    var m := Prepared(b, p, item, id, sourceId, amount, now);
    LedgerGrows(b.ledger, m.ledger[|b.ledger|]);
  }

  /** The new row of a posting, before and after the allocation. */
  ghost predicate NewRow(b: Books, b': Books, p: int, item: Item, id: int, sourceId: int, amount: int, now: int) {
    match item
    case ChargeItem(kind, due) =>
      && |b'.charges| == |b.charges| + 1 && |b'.credits| == |b.credits|
      && SameCharge(Charge(id, p, kind, sourceId, amount, due, now, 0, Unpaid, None), b'.charges[|b.charges|])
    case CreditItem(kind) =>
      && |b'.charges| == |b.charges| && |b'.credits| == |b.credits| + 1
      && SameCredit(Credit(id, p, kind, sourceId, amount, now, 0), b'.credits[|b.credits|])
  }

  /** Earlier rows keep everything but their allocation. */
  ghost predicate OldRows(b: Books, b': Books) {
    && |b.charges| <= |b'.charges| && |b.credits| <= |b'.credits|
    && (forall i :: 0 <= i < |b.charges| ==> SameCharge(b.charges[i], b'.charges[i]))
    && (forall j :: 0 <= j < |b.credits| ==> SameCredit(b.credits[j], b'.credits[j]))
  }

  lemma {:induction false} ApplyLinesShape(b: Books, p: int, lines: seq<Line>, now: int)
    ensures SameItems(b, ApplyLines(b, p, lines, now))
  {
    if lines != [] {
      var m := ApplyLines(b, p, lines[..|lines| - 1], now);
      var b' := ApplyLines(b, p, lines, now);
      ApplyLinesShape(b, p, lines[..|lines| - 1], now);
      forall i | 0 <= i < |b.charges| ensures SameCharge(b.charges[i], b'.charges[i]) {
        assert SameCharge(b.charges[i], m.charges[i]);
      }
      forall j | 0 <= j < |b.credits| ensures SameCredit(b.credits[j], b'.credits[j]) {
        assert SameCredit(b.credits[j], m.credits[j]);
      }
    }
  }

  /** What a posting appends, whatever the books: one item, one entry; every old row stays. */
  lemma PostShape(b: Books, p: int, item: Item, id: int, sourceId: int, amount: int, now: int)
    ensures var b' := Post(b, p, item, id, sourceId, amount, now);
      && NewRow(b, b', p, item, id, sourceId, amount, now)
      && OldRows(b, b')
      && b'.ledger == b.ledger + [Entry(p, EntryTypeOf(item), sourceId, amount, BalanceOf(b', p))]
      && b'.balances.Keys == b.balances.Keys + {p}
  {
    hide PlanFor, ApplyLines;
    var m := Prepared(b, p, item, id, sourceId, amount, now);
    ApplyLinesShape(m, p, PlanFor(m, p), now);
    var b' := Post(b, p, item, id, sourceId, amount, now);
    forall i | 0 <= i < |b.charges| ensures SameCharge(b.charges[i], b'.charges[i]) {
      assert SameCharge(m.charges[i], b'.charges[i]);
    }
    forall i | 0 <= i < |b.credits| ensures SameCredit(b.credits[i], b'.credits[i]) {
      assert SameCredit(m.credits[i], b'.credits[i]);
    }
    match item
    case ChargeItem(_, _) => assert SameCharge(m.charges[|b.charges|], b'.charges[|b.charges|]);
    case CreditItem(_) => assert SameCredit(m.credits[|b.credits|], b'.credits[|b.credits|]);
  }

  lemma LeftNonneg(b: Books, p: int)
    requires RowsOk(b)
    ensures Outstanding(b, p) >= 0 && Unapplied(b, p) >= 0
  {
    forall i | 0 <= i < |b.charges| ensures ChargeLeft(p)(b.charges[i]) >= 0 { assert ChargeOk(b.charges[i]); }
    forall i | 0 <= i < |b.credits| ensures CreditLeft(p)(b.credits[i]) >= 0 { assert CreditOk(b.credits[i]); }
    TotalNonneg(b.charges, ChargeLeft(p));
    TotalNonneg(b.credits, CreditLeft(p));
  }

  /** The money of one partnership `q` across a posting for `p`. */
  lemma PostMoney(b: Books, p: int, item: Item, id: int, sourceId: int, amount: int, now: int, q: int)
    requires AllocationInv(b) && MoneyOk(b, q) && FreshId(b, item, id) && amount > 0
    ensures var b' := Post(b, p, item, id, sourceId, amount, now);
      && MoneyOk(b', q)
      && BalanceOf(b', q) == BalanceOf(b, q) + (if q == p then Effect(item, amount) else 0)
      && (q != p ==> Outstanding(b', q) == Outstanding(b, q) && Unapplied(b', q) == Unapplied(b, q))
  {
    var m := Prepared(b, p, item, id, sourceId, amount, now);
    PreparedAllocation(b, p, item, id, sourceId, amount, now);
    PreparedMoney(b, p, item, id, sourceId, amount, now, q);
    AllocateSettles(m, p, now);
    LeftNonneg(Post(b, p, item, id, sourceId, amount, now), q);
  }

  lemma NoStraysStay(m: Books, b': Books)
    requires NoStrays(m) && SameItems(m, b')
    ensures NoStrays(b')
  {
  }

  /** A posting keeps every invariant of the books and writes the rows of exactly one plan. */
  lemma PostKeepsBooks(b: Books, p: int, item: Item, id: int, sourceId: int, amount: int, now: int)
    requires BooksInv(b) && FreshId(b, item, id) && amount > 0
    ensures var b' := Post(b, p, item, id, sourceId, amount, now);
      && BooksInv(b')
      && b'.allocations == b.allocations + RowsFor(p, PlanFor(Prepared(b, p, item, id, sourceId, amount, now), p))
  {
    hide Prepared, Allocate, AllocationInv, MoneyOk, NoStrays, LedgerOk, PlanFor, RowsFor, FreshId;
    assert MoneyOk(b, p);
    PreparedAllocation(b, p, item, id, sourceId, amount, now);
    PreparedLedger(b, p, item, id, sourceId, amount, now);
    var m := Prepared(b, p, item, id, sourceId, amount, now);
    AllocateSettles(m, p, now);
    PostIsPrepared(b, p, item, id, sourceId, amount, now);
    var b' := Post(b, p, item, id, sourceId, amount, now);
    NoStraysStay(m, b');
    forall q ensures MoneyOk(b', q) { PostMoney(b, p, item, id, sourceId, amount, now, q); }
  }

  lemma PostIsPrepared(b: Books, p: int, item: Item, id: int, sourceId: int, amount: int, now: int)
    ensures Post(b, p, item, id, sourceId, amount, now)
         == Allocate(Prepared(b, p, item, id, sourceId, amount, now), p, now)
    ensures Prepared(b, p, item, id, sourceId, amount, now).allocations == b.allocations
  {
  }
}
