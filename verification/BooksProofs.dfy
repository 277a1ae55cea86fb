/** What one allocation step, a whole allocation and a whole posting keep, and what they bring about. */
module BooksProofs {
  import opened Seqs
  import opened Fifo
  import opened Books

  // ---------------------------------------------------------------- row invariants

  /** The rows satisfy the table constraints. */
  ghost predicate RowsOk(b: Books) {
    && DistinctBy(b.charges, ChargeKey())
    && DistinctBy(b.credits, CreditKey())
    && (forall i :: 0 <= i < |b.charges| ==> ChargeOk(b.charges[i]))
    && (forall i :: 0 <= i < |b.credits| ==> CreditOk(b.credits[i]))
  }

  predicate ChargeOk(c: Charge) {
    && GoodAmounts(c.amount, c.allocatedAmount)
    && c.status == StatusOf(c.amount, c.allocatedAmount)
    && (c.paidAt.Some? <==> c.status == Paid)
  }

  predicate CreditOk(c: Credit) { GoodAmounts(c.amount, c.allocatedAmount) }

  /** Each item's allocated amount is the sum of its allocation rows. */
  ghost predicate SumsOk(b: Books) {
    && (forall i :: 0 <= i < |b.charges| ==>
          b.charges[i].allocatedAmount
          == Total(b.allocations, RowToCharge(b.charges[i].partnership, b.charges[i].id)))
    && (forall j :: 0 <= j < |b.credits| ==>
          b.credits[j].allocatedAmount
          == Total(b.allocations, RowFromCredit(b.credits[j].partnership, b.credits[j].id)))
  }

  ghost predicate ChargeDone(b: Books, id: int) {
    forall i :: 0 <= i < |b.charges| && b.charges[i].id == id ==> b.charges[i].Remaining() == 0
  }

  ghost predicate CreditDone(b: Books, id: int) {
    forall j :: 0 <= j < |b.credits| && b.credits[j].id == id ==> b.credits[j].Remaining() == 0
  }

  ghost predicate HasCharge(b: Books, p: int, id: int) {
    exists i :: 0 <= i < |b.charges| && b.charges[i].id == id && b.charges[i].partnership == p
  }

  ghost predicate HasCredit(b: Books, p: int, id: int) {
    exists j :: 0 <= j < |b.credits| && b.credits[j].id == id && b.credits[j].partnership == p
  }

  /**
   Every allocation row joins a charge and a credit of one partnership and has exhausted one of
   them; and no pair of items is joined twice.
   */
  ghost predicate PairsOk(b: Books) {
    && (forall k :: 0 <= k < |b.allocations| ==> PairOk(b, b.allocations[k]))
    && (forall k, l :: 0 <= k < l < |b.allocations| ==>
          b.allocations[k].chargeId != b.allocations[l].chargeId
          || b.allocations[k].creditId != b.allocations[l].creditId)
  }

  ghost predicate PairOk(b: Books, a: Allocation) {
    && a.amount > 0
    && HasCharge(b, a.partnership, a.chargeId)
    && HasCredit(b, a.partnership, a.creditId)
    && (ChargeDone(b, a.chargeId) || CreditDone(b, a.creditId))
  }

  function RowCount(b: Books, p: int): int { Total(b.allocations, OneRow(p)) }

  function ItemCount(b: Books, p: int): int { Total(b.charges, OneCharge(p)) + Total(b.credits, OneCredit(p)) }

  function FullCount(b: Books, p: int): int { Total(b.charges, FullCharge(p)) + Total(b.credits, FullCredit(p)) }

  /** Over the whole history: at most one allocation row per exhausted item, and fewer rows than items. */
  ghost predicate CountOk(b: Books, p: int) {
    RowCount(b, p) <= FullCount(b, p) && (RowCount(b, p) > 0 ==> RowCount(b, p) < ItemCount(b, p))
  }

  ghost predicate AllocationInv(b: Books) {
    RowsOk(b) && SumsOk(b) && PairsOk(b) && forall p :: CountOk(b, p)
  }

  /** A line that fits its two rows and uses up one of them. */
  ghost predicate Fits(b: Books, p: int, i: nat, j: nat, amount: int) {
    && i < |b.charges| && j < |b.credits|
    && b.charges[i].partnership == p == b.credits[j].partnership
    && 0 < amount == Min(b.charges[i].Remaining(), b.credits[j].Remaining())
  }

  // ---------------------------------------------------------------- one line

  lemma ApplyKeepsRows(b: Books, p: int, i: nat, j: nat, amount: int, now: int)
    requires RowsOk(b) && Fits(b, p, i, j, amount)
    ensures RowsOk(ApplyAt(b, p, i, j, amount, now))
  {
  }

  lemma OtherCharge(b: Books, x: nat, i: nat)
    requires RowsOk(b) && x < |b.charges| && i < |b.charges|
    ensures x != i ==> b.charges[x].id != b.charges[i].id
  {
  }

  lemma OtherCredit(b: Books, x: nat, j: nat)
    requires RowsOk(b) && x < |b.credits| && j < |b.credits|
    ensures x != j ==> b.credits[x].id != b.credits[j].id
  {
  }

  lemma ApplyKeepsSums(b: Books, p: int, i: nat, j: nat, amount: int, now: int)
    requires RowsOk(b) && SumsOk(b) && Fits(b, p, i, j, amount)
    ensures SumsOk(ApplyAt(b, p, i, j, amount, now))
  {
  }

  /** Rows that keep their ids and partnerships and only get fuller keep every pair in order. */
  lemma PairStays(b: Books, b': Books, a: Allocation)
    requires PairOk(b, a)
    requires |b.charges| <= |b'.charges| && |b.credits| <= |b'.credits|
    requires forall i :: 0 <= i < |b.charges| ==>
      b'.charges[i].id == b.charges[i].id && b'.charges[i].partnership == b.charges[i].partnership
      && (b.charges[i].Remaining() == 0 ==> b'.charges[i].Remaining() == 0)
    requires forall j :: 0 <= j < |b.credits| ==>
      b'.credits[j].id == b.credits[j].id && b'.credits[j].partnership == b.credits[j].partnership
      && (b.credits[j].Remaining() == 0 ==> b'.credits[j].Remaining() == 0)
    requires forall i :: |b.charges| <= i < |b'.charges| ==> b'.charges[i].id != a.chargeId
    requires forall j :: |b.credits| <= j < |b'.credits| ==> b'.credits[j].id != a.creditId
    ensures PairOk(b', a)
  {
  }

  lemma ApplyKeepsPairs(b: Books, p: int, i: nat, j: nat, amount: int, now: int)
    requires RowsOk(b) && PairsOk(b) && Fits(b, p, i, j, amount)
    ensures PairsOk(ApplyAt(b, p, i, j, amount, now))
  {
    hide Total;
    var b' := ApplyAt(b, p, i, j, amount, now);
    var n := |b.allocations|;
    var a := b'.allocations[n];
    forall k | 0 <= k < n
      ensures PairOk(b', b'.allocations[k])
      ensures b.allocations[k].chargeId != a.chargeId || b.allocations[k].creditId != a.creditId
    {
      assert PairOk(b, b.allocations[k]);
      PairStays(b, b', b.allocations[k]);
    }
    assert b'.charges[i].id == a.chargeId && b'.charges[i].partnership == p;
    assert b'.credits[j].id == a.creditId && b'.credits[j].partnership == p;
    if b'.charges[i].Remaining() == 0 {
      forall x | 0 <= x < |b'.charges| && b'.charges[x].id == a.chargeId ensures b'.charges[x].Remaining() == 0 {
        OtherCharge(b, x, i);
      }
      assert ChargeDone(b', a.chargeId);
    } else {
      forall x | 0 <= x < |b'.credits| && b'.credits[x].id == a.creditId ensures b'.credits[x].Remaining() == 0 {
        OtherCredit(b, x, j);
      }
      assert CreditDone(b', a.creditId);
    }
    assert PairOk(b', a);
  }

  lemma FullBelowItems(b: Books, p: int)
    ensures Total(b.charges, FullCharge(p)) <= Total(b.charges, OneCharge(p))
    ensures Total(b.credits, FullCredit(p)) <= Total(b.credits, OneCredit(p))
  {
    TotalLe(b.charges, FullCharge(p), OneCharge(p));
    TotalLe(b.credits, FullCredit(p), OneCredit(p));
  }

  /** A partnership with an item that is not exhausted has fewer exhausted items than items. */
  lemma NotAllFull(b: Books, p: int)
    requires (exists i :: 0 <= i < |b.charges| && b.charges[i].partnership == p && b.charges[i].Remaining() != 0)
          || (exists j :: 0 <= j < |b.credits| && b.credits[j].partnership == p && b.credits[j].Remaining() != 0)
    ensures FullCount(b, p) < ItemCount(b, p)
  {
    FullBelowItems(b, p);
    var openCharge := (c: Charge) => OneCharge(p)(c) - FullCharge(p)(c);
    var openCredit := (c: Credit) => OneCredit(p)(c) - FullCredit(p)(c);
    TotalAdd(b.charges, FullCharge(p), openCharge, OneCharge(p));
    TotalAdd(b.credits, FullCredit(p), openCredit, OneCredit(p));
    TotalNonneg(b.charges, openCharge);
    TotalNonneg(b.credits, openCredit);
    if i :| 0 <= i < |b.charges| && b.charges[i].partnership == p && b.charges[i].Remaining() != 0 {
      assert openCharge(b.charges[i]) == 1;
    } else {
      var j :| 0 <= j < |b.credits| && b.credits[j].partnership == p && b.credits[j].Remaining() != 0;
      assert openCredit(b.credits[j]) == 1;
    }
  }

  lemma ApplyCounts(b: Books, p: int, i: nat, j: nat, amount: int, now: int, q: int)
    requires Fits(b, p, i, j, amount)
    ensures var b' := ApplyAt(b, p, i, j, amount, now);
      && RowCount(b', q) == RowCount(b, q) + (if q == p then 1 else 0)
      && ItemCount(b', q) == ItemCount(b, q)
      && FullCount(b', q) == FullCount(b, q)
           + (if q == p && b'.charges[i].Remaining() == 0 then 1 else 0)
           + (if q == p && b'.credits[j].Remaining() == 0 then 1 else 0)
  {
    hide Total;
    var c, k := Pay(b.charges[i], amount, now), Use(b.credits[j], amount);
    TotalSnoc(b.allocations, Allocation(p, b.charges[i].id, b.credits[j].id, amount), OneRow(q));
    TotalUpdate(b.charges, i, c, OneCharge(q));
    TotalUpdate(b.charges, i, c, FullCharge(q));
    TotalUpdate(b.credits, j, k, OneCredit(q));
    TotalUpdate(b.credits, j, k, FullCredit(q));
  }

  lemma ApplyKeepsCount(b: Books, p: int, i: nat, j: nat, amount: int, now: int, q: int)
    requires Fits(b, p, i, j, amount) && CountOk(b, q)
    ensures CountOk(ApplyAt(b, p, i, j, amount, now), q)
  {
    var b' := ApplyAt(b, p, i, j, amount, now);
    ApplyCounts(b, p, i, j, amount, now, q);
    if q == p {
      FullBelowItems(b', p);
      if b'.charges[i].Remaining() != 0 || b'.credits[j].Remaining() != 0 {
        NotAllFull(b', p);
      }
    }
  }

  lemma ApplyKeepsAll(b: Books, p: int, i: nat, j: nat, amount: int, now: int)
    requires AllocationInv(b) && Fits(b, p, i, j, amount)
    ensures AllocationInv(ApplyAt(b, p, i, j, amount, now))
  {
    ApplyKeepsRows(b, p, i, j, amount, now);
    ApplyKeepsSums(b, p, i, j, amount, now);
    ApplyKeepsPairs(b, p, i, j, amount, now);
    forall q ensures CountOk(ApplyAt(b, p, i, j, amount, now), q) { ApplyKeepsCount(b, p, i, j, amount, now, q); }
  }

  lemma ApplyMovesMoney(b: Books, p: int, i: nat, j: nat, amount: int, now: int, q: int)
    requires Fits(b, p, i, j, amount)
    ensures var b' := ApplyAt(b, p, i, j, amount, now);
            && Outstanding(b', q) == Outstanding(b, q) - (if q == p then amount else 0)
            && Unapplied(b', q) == Unapplied(b, q) - (if q == p then amount else 0)
  {
    var b' := ApplyAt(b, p, i, j, amount, now);
    TotalUpdate(b.charges, i, b'.charges[i], ChargeLeft(q));
    TotalUpdate(b.credits, j, b'.credits[j], CreditLeft(q));
  }

  // ---------------------------------------------------------------- a whole allocation

  /** Everything of an item but its allocation is the same, and ledger and projections are untouched. */
  ghost predicate SameItems(b: Books, b': Books) {
    && |b'.charges| == |b.charges| && |b'.credits| == |b.credits|
    && (forall i :: 0 <= i < |b.charges| ==> SameCharge(b.charges[i], b'.charges[i]))
    && (forall j :: 0 <= j < |b.credits| ==> SameCredit(b.credits[j], b'.credits[j]))
    && b'.ledger == b.ledger && b'.balances == b.balances
  }

  predicate SameCharge(c: Charge, c': Charge) {
    c' == c.(allocatedAmount := c'.allocatedAmount, status := c'.status, paidAt := c'.paidAt)
  }

  predicate SameCredit(c: Credit, c': Credit) { c' == c.(allocatedAmount := c'.allocatedAmount) }

  ghost predicate ListsCharge(charges: seq<Charge>, p: int, e: OpenItem) {
    exists i :: 0 <= i < |charges| && charges[i].id == e.id && charges[i].partnership == p
                && charges[i].Remaining() == e.left
  }

  /** `list` names the open charges of `p`, each with what is left of it. */
  ghost predicate ListsCharges(charges: seq<Charge>, p: int, list: seq<OpenItem>) {
    && DistinctBy(list, OpenId())
    && (forall t :: 0 <= t < |list| ==> ListsCharge(charges, p, list[t]))
    && (forall i :: 0 <= i < |charges| && charges[i].partnership == p && charges[i].Remaining() > 0 ==>
          Mentions(list, charges[i].id))
  }

  ghost predicate ListsCredit(credits: seq<Credit>, p: int, e: OpenItem) {
    exists i :: 0 <= i < |credits| && credits[i].id == e.id && credits[i].partnership == p
                && credits[i].Remaining() == e.left
  }

  ghost predicate ListsCredits(credits: seq<Credit>, p: int, list: seq<OpenItem>) {
    && DistinctBy(list, OpenId())
    && (forall t :: 0 <= t < |list| ==> ListsCredit(credits, p, list[t]))
    && (forall i :: 0 <= i < |credits| && credits[i].partnership == p && credits[i].Remaining() > 0 ==>
          Mentions(list, credits[i].id))
  }

  lemma DropEmptyCharge(b: Books, p: int, list: seq<OpenItem>)
    requires RowsOk(b) && ListsCharges(b.charges, p, list) && list != [] && list[0].left == 0
    ensures ListsCharges(b.charges, p, list[1..])
  {
  }

  lemma DropEmptyCredit(b: Books, p: int, list: seq<OpenItem>)
    requires RowsOk(b) && ListsCredits(b.credits, p, list) && list != [] && list[0].left == 0
    ensures ListsCredits(b.credits, p, list[1..])
  {
  }

  lemma ReduceMentions(list: seq<OpenItem>, used: nat, id: int)
    requires list != [] && used <= list[0].left && Mentions(list, id)
    ensures Mentions(Reduce(list, used), id)
  {
    var t :| 0 <= t < |list| && list[t].id == id;
    assert Reduce(list, used)[t].id == id;
  }

  lemma ReduceHeadCharge(b: Books, p: int, list: seq<OpenItem>, i: nat, used: nat, now: int)
    requires RowsOk(b) && ListsCharges(b.charges, p, list) && list != [] && used <= list[0].left
    requires i < |b.charges| && b.charges[i].id == list[0].id && b.charges[i].partnership == p
    requires b.charges[i].Remaining() == list[0].left
    ensures ListsCharges(b.charges[i := Pay(b.charges[i], used, now)], p, Reduce(list, used))
  {
    var charges' := b.charges[i := Pay(b.charges[i], used, now)];
    var list' := Reduce(list, used);
    ReduceDistinct(list, used);
    forall t | 0 <= t < |list'| ensures ListsCharge(charges', p, list'[t]) {
      if t == 0 {
        assert charges'[i].id == list'[0].id && charges'[i].Remaining() == list'[0].left;
      } else {
        assert ListsCharge(b.charges, p, list[t]);
        var x :| 0 <= x < |b.charges| && b.charges[x].id == list[t].id && b.charges[x].partnership == p
                 && b.charges[x].Remaining() == list[t].left;
        assert OpenId()(list[0]) != OpenId()(list[t]);
        assert charges'[x].id == list'[t].id && charges'[x].Remaining() == list'[t].left;
      }
    }
    forall x | 0 <= x < |charges'| && charges'[x].partnership == p && charges'[x].Remaining() > 0
      ensures Mentions(list', charges'[x].id)
    {
      if x == i { assert list'[0].id == charges'[x].id; } else { ReduceMentions(list, used, charges'[x].id); }
    }
  }

  lemma ReduceHeadCredit(b: Books, p: int, list: seq<OpenItem>, i: nat, used: nat)
    requires RowsOk(b) && ListsCredits(b.credits, p, list) && list != [] && used <= list[0].left
    requires i < |b.credits| && b.credits[i].id == list[0].id && b.credits[i].partnership == p
    requires b.credits[i].Remaining() == list[0].left
    ensures ListsCredits(b.credits[i := Use(b.credits[i], used)], p, Reduce(list, used))
  {
    var credits' := b.credits[i := Use(b.credits[i], used)];
    var list' := Reduce(list, used);
    ReduceDistinct(list, used);
    forall t | 0 <= t < |list'| ensures ListsCredit(credits', p, list'[t]) {
      if t == 0 {
        assert credits'[i].id == list'[0].id && credits'[i].Remaining() == list'[0].left;
      } else {
        assert ListsCredit(b.credits, p, list[t]);
        var x :| 0 <= x < |b.credits| && b.credits[x].id == list[t].id && b.credits[x].partnership == p
                 && b.credits[x].Remaining() == list[t].left;
        assert OpenId()(list[0]) != OpenId()(list[t]);
        assert credits'[x].id == list'[t].id && credits'[x].Remaining() == list'[t].left;
      }
    }
    forall x | 0 <= x < |credits'| && credits'[x].partnership == p && credits'[x].Remaining() > 0
      ensures Mentions(list', credits'[x].id)
    {
      if x == i { assert list'[0].id == credits'[x].id; } else { ReduceMentions(list, used, credits'[x].id); }
    }
  }

  lemma {:induction false} ApplyFirst(b: Books, p: int, line: Line, rest: seq<Line>, now: int)
    ensures ApplyLines(b, p, [line] + rest, now) == ApplyLines(ApplyLine(b, p, line, now), p, rest, now)
  {
    var all := [line] + rest;
    if rest == [] {
      assert all[..0] == [];
    } else {
      assert all[..|all| - 1] == [line] + rest[..|rest| - 1];
      ApplyFirst(b, p, line, rest[..|rest| - 1], now);
    }
  }

  function RowsFor(p: int, lines: seq<Line>): (r: seq<Allocation>)
    ensures |r| == |lines|
  {
    seq(|lines|, i requires 0 <= i < |lines| => Allocation(p, lines[i].chargeId, lines[i].creditId, lines[i].amount))
  }

  /** The head line of the walk fits the two rows it names. */
  lemma HeadFits(b: Books, p: int, ch: seq<OpenItem>, cr: seq<OpenItem>, now: int) returns (i: nat, j: nat)
    requires RowsOk(b) && ListsCharges(b.charges, p, ch) && ListsCredits(b.credits, p, cr)
    requires ch != [] && cr != [] && ch[0].left > 0 && cr[0].left > 0
    ensures var used := Min(ch[0].left, cr[0].left);
      && Fits(b, p, i, j, used)
      && b.charges[i].id == ch[0].id && b.credits[j].id == cr[0].id
      && b.charges[i].Remaining() == ch[0].left && b.credits[j].Remaining() == cr[0].left
      && ApplyLine(b, p, Line(ch[0].id, cr[0].id, used), now) == ApplyAt(b, p, i, j, used, now)
  {
    assert ListsCharge(b.charges, p, ch[0]);
    assert ListsCredit(b.credits, p, cr[0]);
    i :| 0 <= i < |b.charges| && b.charges[i].id == ch[0].id && b.charges[i].partnership == p
         && b.charges[i].Remaining() == ch[0].left;
    j :| 0 <= j < |b.credits| && b.credits[j].id == cr[0].id && b.credits[j].partnership == p
         && b.credits[j].Remaining() == cr[0].left;
    var x, y := ChargeIndex(b.charges, ch[0].id), CreditIndex(b.credits, cr[0].id);
    if x.value != i { OtherCharge(b, x.value, i); }
    if y.value != j { OtherCredit(b, y.value, j); }
  }

  /** What a whole allocation brings about. */
  ghost predicate Settled(b: Books, b': Books, p: int, lines: seq<Line>) {
    && AllocationInv(b')
    && SameItems(b, b')
    && b'.allocations == b.allocations + RowsFor(p, lines)
    && (Outstanding(b', p) == 0 || Unapplied(b', p) == 0)
    && Outstanding(b', p) - Unapplied(b', p) == Outstanding(b, p) - Unapplied(b, p)
    && (forall q :: q != p ==> Outstanding(b', q) == Outstanding(b, q) && Unapplied(b', q) == Unapplied(b, q))
  }

  lemma {:induction false} Settle(b: Books, p: int, ch: seq<OpenItem>, cr: seq<OpenItem>, now: int)
    requires AllocationInv(b)
    requires ListsCharges(b.charges, p, ch) && ListsCredits(b.credits, p, cr)
    ensures Settled(b, ApplyLines(b, p, Merge(ch, cr), now), p, Merge(ch, cr))
    decreases |ch| + |cr|, if ch == [] || cr == [] then 0 else ch[0].left + cr[0].left
  {
    if ch == [] {
      forall i | 0 <= i < |b.charges| ensures ChargeLeft(p)(b.charges[i]) == 0 {
        assert ChargeOk(b.charges[i]);
        assert b.charges[i].partnership == p && b.charges[i].Remaining() > 0 ==> Mentions(ch, b.charges[i].id);
      }
      TotalZero(b.charges, ChargeLeft(p));
    } else if cr == [] {
      forall i | 0 <= i < |b.credits| ensures CreditLeft(p)(b.credits[i]) == 0 {
        assert CreditOk(b.credits[i]);
        assert b.credits[i].partnership == p && b.credits[i].Remaining() > 0 ==> Mentions(cr, b.credits[i].id);
      }
      TotalZero(b.credits, CreditLeft(p));
    } else if ch[0].left == 0 {
      DropEmptyCharge(b, p, ch);
      Settle(b, p, ch[1..], cr, now);
    } else if cr[0].left == 0 {
      DropEmptyCredit(b, p, cr);
      Settle(b, p, ch, cr[1..], now);
    } else {
      SettleStep(b, p, ch, cr, now);
    }
  }

  lemma {:induction false} SettleStep(b: Books, p: int, ch: seq<OpenItem>, cr: seq<OpenItem>, now: int)
    requires AllocationInv(b)
    requires ListsCharges(b.charges, p, ch) && ListsCredits(b.credits, p, cr)
    requires ch != [] && cr != [] && ch[0].left > 0 && cr[0].left > 0
    ensures Settled(b, ApplyLines(b, p, Merge(ch, cr), now), p, Merge(ch, cr))
    decreases |ch| + |cr|, ch[0].left + cr[0].left, 0
  {
    var i, j := HeadFits(b, p, ch, cr, now);
    var used := Min(ch[0].left, cr[0].left);
    var b1 := ApplyAt(b, p, i, j, used, now);
    var ch', cr' := Reduce(ch, used), Reduce(cr, used);
    var rest := Merge(ch', cr');
    var line := Line(ch[0].id, cr[0].id, used);
    MergeHeads(ch, cr, ch', cr');
    ApplyFirst(b, p, line, rest, now);
    ApplyKeepsAll(b, p, i, j, used, now);
    ReduceHeadCharge(b, p, ch, i, used, now);
    ReduceHeadCredit(b, p, cr, j, used);
    Settle(b1, p, ch', cr', now);
    var b' := ApplyLines(b1, p, rest, now);
    SettledStep(b, b1, b', p, i, j, line, rest, now);
  }

  lemma SettledStep(b: Books, b1: Books, b': Books, p: int, i: nat, j: nat, line: Line, rest: seq<Line>, now: int)
    requires Fits(b, p, i, j, line.amount) && b1 == ApplyAt(b, p, i, j, line.amount, now)
    requires line == Line(b.charges[i].id, b.credits[j].id, line.amount)
    requires Settled(b1, b', p, rest)
    ensures Settled(b, b', p, [line] + rest)
  {
    hide Total, ApplyLines;
    forall q ensures Outstanding(b1, q) == Outstanding(b, q) - (if q == p then line.amount else 0)
             ensures Unapplied(b1, q) == Unapplied(b, q) - (if q == p then line.amount else 0)
    {
      ApplyMovesMoney(b, p, i, j, line.amount, now, q);
    }
    assert b1.allocations + RowsFor(p, rest) == b.allocations + RowsFor(p, [line] + rest);
    assert SameItems(b, b1);
    forall x | 0 <= x < |b.charges| ensures SameCharge(b.charges[x], b'.charges[x]) {
      assert SameCharge(b.charges[x], b1.charges[x]) && SameCharge(b1.charges[x], b'.charges[x]);
    }
    forall x | 0 <= x < |b.credits| ensures SameCredit(b.credits[x], b'.credits[x]) {
      assert SameCredit(b.credits[x], b1.credits[x]) && SameCredit(b1.credits[x], b'.credits[x]);
    }
  }
}
