/** A posting spends the oldest credits on the oldest charges, and stamps what it pays in full. */
module PostingOrder {
  import opened Seqs
  import opened Fifo
  import opened Books
  import opened BooksProofs
  import opened Posting

  // ---------------------------------------------------------------- what an allocation gives

  lemma {:induction false} TotalRowsFor(p: int, lines: seq<Line>, id: int)
    ensures Total(RowsFor(p, lines), RowToCharge(p, id)) == Total(lines, ToCharge(id))
    ensures Total(RowsFor(p, lines), RowFromCredit(p, id)) == Total(lines, FromCredit(id))
  {
    if lines != [] {
      var n := |lines| - 1;
      assert RowsFor(p, lines)[..n] == RowsFor(p, lines[..n]);
      TotalRowsFor(p, lines[..n], id);
    }
  }

  /** Every item is allocated exactly what the plan gives it, beside what it already had. */
  lemma AllocatesThePlan(b: Books, b': Books, p: int, lines: seq<Line>)
    requires AllocationInv(b) && Settled(b, b', p, lines)
    ensures forall i :: 0 <= i < |b.charges| && b.charges[i].partnership == p ==>
      b'.charges[i].allocatedAmount == b.charges[i].allocatedAmount + Total(lines, ToCharge(b.charges[i].id))
    ensures forall j :: 0 <= j < |b.credits| && b.credits[j].partnership == p ==>
      b'.credits[j].allocatedAmount == b.credits[j].allocatedAmount + Total(lines, FromCredit(b.credits[j].id))
  {
    hide Total, RowsOk, PairsOk, CountOk, RowsFor;
    forall i | 0 <= i < |b.charges| && b.charges[i].partnership == p
      ensures b'.charges[i].allocatedAmount == b.charges[i].allocatedAmount + Total(lines, ToCharge(b.charges[i].id))
    {
      assert SameCharge(b.charges[i], b'.charges[i]);
      TotalAppend(b.allocations, RowsFor(p, lines), RowToCharge(p, b.charges[i].id));
      TotalRowsFor(p, lines, b.charges[i].id);
    }
    forall j | 0 <= j < |b.credits| && b.credits[j].partnership == p
      ensures b'.credits[j].allocatedAmount == b.credits[j].allocatedAmount + Total(lines, FromCredit(b.credits[j].id))
    {
      assert SameCredit(b.credits[j], b'.credits[j]);
      TotalAppend(b.allocations, RowsFor(p, lines), RowFromCredit(p, b.credits[j].id));
      TotalRowsFor(p, lines, b.credits[j].id);
    }
  }

  lemma PlanIsPositive(b: Books, p: int, l: Line)
    requires l in PlanFor(b, p)
    ensures l.amount > 0
    ensures Total(PlanFor(b, p), ToCharge(l.chargeId)) > 0 && Total(PlanFor(b, p), FromCredit(l.creditId)) > 0
  {
    hide Total, Merge, Sort;
    var lines := PlanFor(b, p);
    MergeTotal(OpenCharges(Sort(OpenChargeInputs(b, p), ChargeBefore())),
               OpenCredits(Sort(OpenCreditInputs(b, p), CreditBefore())));
    var k :| 0 <= k < |lines| && lines[k] == l;
    TotalNonneg(lines, ToCharge(l.chargeId));
    TotalNonneg(lines, FromCredit(l.creditId));
    assert ToCharge(l.chargeId)(lines[k]) == FromCredit(l.creditId)(lines[k]) == l.amount;
  }

  lemma PlanGivesNothingBack(b: Books, p: int, id: int)
    ensures Total(PlanFor(b, p), ToCharge(id)) >= 0 && Total(PlanFor(b, p), FromCredit(id)) >= 0
  {
    hide Total, PlanFor;
    var lines := PlanFor(b, p);
    forall k | 0 <= k < |lines| ensures lines[k].amount > 0 { PlanIsPositive(b, p, lines[k]); }
    TotalNonneg(lines, ToCharge(id));
    TotalNonneg(lines, FromCredit(id));
  }

  lemma OpenChargeIsInput(b: Books, i: nat)
    requires i < |b.charges| && b.charges[i].allocatedAmount < b.charges[i].amount
    ensures ChargeInputOf(b.charges[i]) in OpenChargeInputs(b, b.charges[i].partnership)
  {
    var p := b.charges[i].partnership;
    var rows := Filter(b.charges, IsOpenCharge(p));
    assert b.charges[i] in rows;
    var k :| 0 <= k < |rows| && rows[k] == b.charges[i];
    assert OpenChargeInputs(b, p)[k] == ChargeInputOf(b.charges[i]);
  }

  lemma OpenCreditIsInput(b: Books, j: nat)
    requires j < |b.credits| && b.credits[j].allocatedAmount < b.credits[j].amount
    ensures CreditInputOf(b.credits[j]) in OpenCreditInputs(b, b.credits[j].partnership)
  {
    var p := b.credits[j].partnership;
    var rows := Filter(b.credits, IsOpenCredit(p));
    assert b.credits[j] in rows;
    var k :| 0 <= k < |rows| && rows[k] == b.credits[j];
    assert OpenCreditInputs(b, p)[k] == CreditInputOf(b.credits[j]);
  }

  // ---------------------------------------------------------------- oldest first

  /** Due earlier, or on the same day and created earlier, or at the same instant with the smaller id. */
  predicate OlderCharge(x: Charge, y: Charge) {
    x.dueDate < y.dueDate
    || (x.dueDate == y.dueDate && x.createdAt < y.createdAt)
    || (x.dueDate == y.dueDate && x.createdAt == y.createdAt && x.id < y.id)
  }

  predicate OlderCredit(x: Credit, y: Credit) {
    x.createdAt < y.createdAt || (x.createdAt == y.createdAt && x.id < y.id)
  }

  lemma ChargesPaidInTurn(b: Books, p: int, now: int, x: nat, y: nat, l: Line)
    requires AllocationInv(b) && l in PlanFor(b, p)
    requires x < |b.charges| && b.charges[x].partnership == p && y < |b.charges| && b.charges[y].partnership == p
    requires b.charges[y].id == l.chargeId && OlderCharge(b.charges[x], b.charges[y])
    ensures |Allocate(b, p, now).charges| == |b.charges|
    ensures Allocate(b, p, now).charges[x].allocatedAmount == b.charges[x].amount
  {
    hide PlanFor, Allocate, Total, OpenChargeInputs, OpenCreditInputs, SumsOk, PairsOk, CountOk, Plan;
    var b' := Allocate(b, p, now);
    var lines := PlanFor(b, p);
    AllocateSettles(b, p, now);
    AllocatesThePlan(b, b', p, lines);
    PlanIsPositive(b, p, l);
    PlanGivesNothingBack(b, p, b.charges[x].id);
    assert SameCharge(b.charges[x], b'.charges[x]) && SameCharge(b.charges[y], b'.charges[y]);
    assert ChargeOk(b'.charges[x]) && ChargeOk(b'.charges[y]) && ChargeOk(b.charges[x]);
    OpenChargeIsInput(b, y);
    if b.charges[x].allocatedAmount < b.charges[x].amount {
      OpenChargeIsInput(b, x);
      PlanChargesInTurn(b, p);
    }
  }

  lemma PlanChargesInTurn(b: Books, p: int)
    requires RowsOk(b)
    ensures ChargesInTurn(OpenChargeInputs(b, p), PlanFor(b, p))
    ensures CreditsInTurn(OpenCreditInputs(b, p), PlanFor(b, p))
  {
    hide Plan, OpenChargeInputs, OpenCreditInputs, RowsOk;
    InputsAreValid(b, p);
    PlanInTurn(OpenChargeInputs(b, p), OpenCreditInputs(b, p));
  }

  lemma CreditsSpentInTurn(b: Books, p: int, now: int, x: nat, y: nat, l: Line)
    requires AllocationInv(b) && l in PlanFor(b, p)
    requires x < |b.credits| && b.credits[x].partnership == p && y < |b.credits| && b.credits[y].partnership == p
    requires b.credits[y].id == l.creditId && OlderCredit(b.credits[x], b.credits[y])
    ensures |Allocate(b, p, now).credits| == |b.credits|
    ensures Allocate(b, p, now).credits[x].allocatedAmount == b.credits[x].amount
  {
    hide PlanFor, Allocate, Total, OpenChargeInputs, OpenCreditInputs, SumsOk, PairsOk, CountOk, Plan;
    var b' := Allocate(b, p, now);
    var lines := PlanFor(b, p);
    AllocateSettles(b, p, now);
    AllocatesThePlan(b, b', p, lines);
    PlanIsPositive(b, p, l);
    PlanGivesNothingBack(b, p, b.credits[x].id);
    assert SameCredit(b.credits[x], b'.credits[x]) && SameCredit(b.credits[y], b'.credits[y]);
    assert CreditOk(b'.credits[x]) && CreditOk(b'.credits[y]) && CreditOk(b.credits[x]);
    OpenCreditIsInput(b, y);
    if b.credits[x].allocatedAmount < b.credits[x].amount {
      OpenCreditIsInput(b, x);
      PlanChargesInTurn(b, p);
    }
  }

  /**
   A posting writes a row to a charge only when every older open charge of the partnership is paid in full
   by the same posting, and takes from a credit only when every older one is used up by it.
   */
  lemma PostIsInTurn(b: Books, p: int, item: Item, id: int, sourceId: int, amount: int, now: int, k: nat)
    requires AllocationInv(b) && FreshId(b, item, id) && amount > 0
    requires |b.allocations| <= k < |Post(b, p, item, id, sourceId, amount, now).allocations|
    ensures var b' := Post(b, p, item, id, sourceId, amount, now);
      && b'.allocations[k].partnership == p
      && (forall x, y | 0 <= x < |b'.charges| && 0 <= y < |b'.charges| && b'.charges[x].partnership == p
            && b'.charges[y].partnership == p && b'.charges[y].id == b'.allocations[k].chargeId ::
            OlderCharge(b'.charges[x], b'.charges[y]) ==> b'.charges[x].allocatedAmount == b'.charges[x].amount)
      && (forall x, y | 0 <= x < |b'.credits| && 0 <= y < |b'.credits| && b'.credits[x].partnership == p
            && b'.credits[y].partnership == p && b'.credits[y].id == b'.allocations[k].creditId ::
            OlderCredit(b'.credits[x], b'.credits[y]) ==> b'.credits[x].allocatedAmount == b'.credits[x].amount)
  {
    hide Allocate, AllocationInv, Prepared, PlanFor, FreshId, OlderCharge, OlderCredit, Post;
    var m := Prepared(b, p, item, id, sourceId, amount, now);
    PreparedAllocation(b, p, item, id, sourceId, amount, now);
    PostIsPrepared(b, p, item, id, sourceId, amount, now);
    AllocateSettles(m, p, now);
    var b' := Allocate(m, p, now);
    var l := PlanFor(m, p)[k - |b.allocations|];
    SettledOrder(m, b', p);
    forall x: nat, y: nat | x < |b'.charges| && y < |b'.charges| && b'.charges[x].partnership == p
      && b'.charges[y].partnership == p && b'.charges[y].id == l.chargeId && OlderCharge(b'.charges[x], b'.charges[y])
      ensures b'.charges[x].allocatedAmount == b'.charges[x].amount
    {
      ChargesPaidInTurn(m, p, now, x, y, l);
    }
    forall x: nat, y: nat | x < |b'.credits| && y < |b'.credits| && b'.credits[x].partnership == p
      && b'.credits[y].partnership == p && b'.credits[y].id == l.creditId && OlderCredit(b'.credits[x], b'.credits[y])
      ensures b'.credits[x].allocatedAmount == b'.credits[x].amount
    {
      CreditsSpentInTurn(m, p, now, x, y, l);
    }
  }

  lemma SettledOrder(b: Books, b': Books, p: int)
    requires SameItems(b, b')
    ensures forall x :: 0 <= x < |b.charges| ==>
      b'.charges[x].id == b.charges[x].id && b'.charges[x].partnership == b.charges[x].partnership
      && b'.charges[x].amount == b.charges[x].amount
    ensures forall x :: 0 <= x < |b.credits| ==>
      b'.credits[x].id == b.credits[x].id && b'.credits[x].partnership == b.credits[x].partnership
      && b'.credits[x].amount == b.credits[x].amount
    ensures forall x, y :: 0 <= x < |b.charges| && 0 <= y < |b.charges| ==>
      OlderCharge(b'.charges[x], b'.charges[y]) == OlderCharge(b.charges[x], b.charges[y])
    ensures forall x, y :: 0 <= x < |b.credits| && 0 <= y < |b.credits| ==>
      OlderCredit(b'.credits[x], b'.credits[y]) == OlderCredit(b.credits[x], b.credits[y])
  {
    forall x | 0 <= x < |b.charges|
      ensures b'.charges[x].id == b.charges[x].id && b'.charges[x].partnership == b.charges[x].partnership
      ensures b'.charges[x].amount == b.charges[x].amount
      ensures b'.charges[x].dueDate == b.charges[x].dueDate && b'.charges[x].createdAt == b.charges[x].createdAt
    {
      assert SameCharge(b.charges[x], b'.charges[x]);
    }
    forall x | 0 <= x < |b.credits|
      ensures b'.credits[x] == b.credits[x].(allocatedAmount := b'.credits[x].allocatedAmount)
    {
      assert SameCredit(b.credits[x], b'.credits[x]);
    }
  }

  // ---------------------------------------------------------------- stamps

  /** A charge that got nothing is the same row; one that is full now was stamped with the time of it. */
  ghost predicate Stamped(c: Charge, c': Charge, now: int) {
    && c'.allocatedAmount >= c.allocatedAmount
    && (c'.allocatedAmount == c.allocatedAmount ==> c' == c)
    && (c'.allocatedAmount > c.allocatedAmount && c'.allocatedAmount == c'.amount ==> c'.paidAt == Some(now))
  }

  lemma {:induction false} LinesStamp(b: Books, p: int, lines: seq<Line>, now: int)
    requires forall k :: 0 <= k < |lines| ==> lines[k].amount > 0
    ensures |ApplyLines(b, p, lines, now).charges| == |b.charges|
    ensures forall i :: 0 <= i < |b.charges| ==> Stamped(b.charges[i], ApplyLines(b, p, lines, now).charges[i], now)
  {
    if lines != [] {
      var m := ApplyLines(b, p, lines[..|lines| - 1], now);
      LinesStamp(b, p, lines[..|lines| - 1], now);
      forall i | 0 <= i < |b.charges|
        ensures Stamped(b.charges[i], ApplyLines(b, p, lines, now).charges[i], now)
      {
        assert Stamped(b.charges[i], m.charges[i], now);
      }
    }
  }

  /** A posting leaves every charge it pays nothing as it was, and stamps those it completes with its time. */
  lemma PostStamps(b: Books, p: int, item: Item, id: int, sourceId: int, amount: int, now: int, i: nat)
    requires i < |Post(b, p, item, id, sourceId, amount, now).charges|
    ensures var c' := Post(b, p, item, id, sourceId, amount, now).charges[i];
      && (i < |b.charges| ==> Stamped(b.charges[i], c', now))
      && (i >= |b.charges| && c'.allocatedAmount == c'.amount > 0 ==> c'.paidAt == Some(now))
  {
    hide PlanFor, ApplyLines;
    var m := Prepared(b, p, item, id, sourceId, amount, now);
    var lines := PlanFor(m, p);
    forall k | 0 <= k < |lines| ensures lines[k].amount > 0 { PlanIsPositive(m, p, lines[k]); }
    LinesStamp(m, p, lines, now);
    assert Stamped(m.charges[i], Post(b, p, item, id, sourceId, amount, now).charges[i], now);
  }
}
