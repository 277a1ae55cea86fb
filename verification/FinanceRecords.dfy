/** What any run of the finance writer leaves in its records: due days, stamps, turns and final documents. */
module FinanceRecords {
  import opened Seqs
  import opened Fifo
  import opened Books
  import opened BooksProofs
  import opened Posting
  import opened PostingOrder
  import opened Finance
  import opened FinanceProofs
  import opened FinanceOutcomes
  import FinanceTheorems

  // ---------------------------------------------------------------- documents are final

  /** A payment as it was, or ended once. */
  predicate PaymentMoves(x: Payment, y: Payment) {
    y == x || (x.status == PaymentPending && y.status != PaymentPending
               && y == x.(status := y.status, version := x.version + 1))
  }

  predicate AdjustmentMoves(x: Adjustment, y: Adjustment) {
    y == x || (x.status == PendingApproval && y.status != PendingApproval
               && y == x.(status := y.status, selfApproved := y.selfApproved, version := x.version + 1))
  }

  /** Delivered orders keep their terms. */
  ghost predicate TermsStay(orders: map<int, Order>, orders': map<int, Order>) {
    forall o :: o in orders && IsDelivered(orders[o]) ==>
      o in orders' && IsDelivered(orders'[o]) && orders'[o] == orders[o].(status := orders'[o].status)
  }

  ghost predicate Final(s: Store, s': Store) {
    && (forall k :: k in s.payments ==> k in s'.payments && PaymentMoves(s.payments[k], s'.payments[k]))
    && (forall k :: k in s.adjustments ==>
          k in s'.adjustments && AdjustmentMoves(s.adjustments[k], s'.adjustments[k]))
    && (forall k :: k in s.notes ==> k in s'.notes && s'.notes[k] == s.notes[k])
    && TermsStay(s.orders, s'.orders)
  }

  lemma FinalTransitive(s: Store, t: Store, u: Store)
    requires Final(s, t) && Final(t, u)
    ensures Final(s, u)
  {
  }

  /** Of two stores that differ in their books and in one document, new or moved. */
  lemma OneMoves(s: Store, s': Store, id: int)
    requires s'.orders == s.orders && s'.notes == s.notes
    requires (id in s'.payments && s'.adjustments == s.adjustments)
          || (id in s'.adjustments && s'.payments == s.payments)
    requires s'.payments == s.payments || (id in s'.payments && s'.payments == s.payments[id := s'.payments[id]])
    requires s'.adjustments == s.adjustments
          || (id in s'.adjustments && s'.adjustments == s.adjustments[id := s'.adjustments[id]])
    requires id in s.payments && id in s'.payments ==> PaymentMoves(s.payments[id], s'.payments[id])
    requires id in s.adjustments && id in s'.adjustments ==> AdjustmentMoves(s.adjustments[id], s'.adjustments[id])
    ensures Final(s, s')
  {
  }

  lemma OnlyTermsMove(s: Store, s': Store)
    requires s'.payments == s.payments && s'.adjustments == s.adjustments && s'.notes == s.notes
    requires TermsStay(s.orders, s'.orders)
    ensures Final(s, s')
  {
  }

  lemma OrderOpFinal(s: Store, op: Op)
    requires op.OpDeliverOrder? || op.OpRepeatOrderCharge? || op.OpEditOrder? || op.OpCloseOrder?
    ensures Final(s, Step(s, op))
  {
    hide CreateOrderCharge, Charged, ChargeAdded, Due, OnlyLocks, Final;
    match op {
      case OpDeliverOrder(order, id, now) =>
        if order in s.orders {
          ChargeOutcome(s.(orders := s.orders[order := s.orders[order].(status := Delivered, deliveredAt := now)]),
                        order, id, now);
      }
    case OpRepeatOrderCharge(order, id, now) => if order in s.orders { ChargeOutcome(s, order, id, now); }
    case OpEditOrder(_, _) =>
    case OpCloseOrder(_, _) =>
    }
    OnlyTermsMove(s, Step(s, op));
  }

  lemma PaymentOpFinal(s: Store, op: Op)
    requires op.OpRecordPayment? || op.OpConfirmPayment? || op.OpRejectPayment? || op.OpCancelPayment?
    ensures Final(s, Step(s, op))
  {
    hide CreditAdded, OnlyLocks, RecordPayment, ConfirmPayment, FinishPayment, Final, TermsStay;
    match op {
      case OpRecordPayment(p, payment, amount, user, confirm, id, now, allowed) =>
        RecordOutcome(s, p, payment, amount, user, confirm, id, now, allowed);
      case OpConfirmPayment(payment, expected, id, now, allowed) =>
        ConfirmOutcome(s, payment, expected, id, now, allowed);
      case OpRejectPayment(payment, expected, user, hasReason, allowed) =>
        FinishOutcome(s, payment, expected, PaymentRejected, user, hasReason, allowed);
      case OpCancelPayment(payment, expected, user, allowed) =>
        FinishOutcome(s, payment, expected, PaymentCancelled, user, false, allowed);
    }
    if Try(s, op).Ok? { OneMoves(s, Step(s, op), op.payment); } else { FinalSame(s); }
  }

  lemma AdjustmentOpFinal(s: Store, op: Op)
    requires op.OpCreateAdjustment? || op.OpApproveAdjustment? || op.OpRejectAdjustment?
    ensures Final(s, Step(s, op))
  {
    hide Unapplied, AdjustmentPosted, OnlyLocks, CreateAdjustment, ApproveAdjustment, RejectAdjustment;
    hide Final, TermsStay;
    match op {
      case OpCreateAdjustment(p, adjustment, kind, amount, user, owner, id, now, allowed) =>
        CreateOutcome(s, p, adjustment, kind, amount, user, owner, id, now, allowed);
      case OpApproveAdjustment(adjustment, expected, user, id, now, allowed) =>
        ApproveOutcome(s, adjustment, expected, user, id, now, allowed);
      case OpRejectAdjustment(adjustment, expected, allowed) => RejectOutcome(s, adjustment, expected, allowed);
    }
    if Try(s, op).Ok? { OneMoves(s, Step(s, op), op.adjustment); } else { FinalSame(s); }
  }

  lemma OtherOpFinal(s: Store, op: Op)
    requires op.OpCreateCreditNote? || op.OpSetPartner? || op.OpReadBalance?
    ensures Final(s, Step(s, op))
  {
    hide CreditAdded, OnlyLocks, CreateCreditNote, SetPartner, CreditIdUnused, Lock;
    match op
    case OpCreateCreditNote(p, amount, source, noteId, id, now) => NoteOutcome(s, p, amount, source, noteId, id, now);
    case OpSetPartner(p, target) => PartnerOutcome(s, p, target);
    case OpReadBalance(_) =>
  }

  lemma StepFinal(s: Store, op: Op)
    ensures Final(s, Step(s, op))
  {
    hide Step, Final;
    match op
    case OpDeliverOrder(_, _, _) => OrderOpFinal(s, op);
    case OpRepeatOrderCharge(_, _, _) => OrderOpFinal(s, op);
    case OpEditOrder(_, _) => OrderOpFinal(s, op);
    case OpCloseOrder(_, _) => OrderOpFinal(s, op);
    case OpCreateAdjustment(_, _, _, _, _, _, _, _, _) => AdjustmentOpFinal(s, op);
    case OpApproveAdjustment(_, _, _, _, _, _) => AdjustmentOpFinal(s, op);
    case OpRejectAdjustment(_, _, _) => AdjustmentOpFinal(s, op);
    case OpCreateCreditNote(_, _, _, _, _, _) => OtherOpFinal(s, op);
    case OpSetPartner(_, _) => OtherOpFinal(s, op);
    case OpReadBalance(_) => OtherOpFinal(s, op);
    case _ => PaymentOpFinal(s, op);
  }

  /**
   However a run goes on, a payment or an adjustment that has ended stays exactly as it is, one that waits
   ends at most once and otherwise keeps its amount, store and author, a note is never touched, and a
   delivered order keeps its total, its terms and its delivery time.
   */
  lemma {:induction false} DocumentsAreFinal(s: Store, ops: seq<Op>)
    ensures Final(s, Run(s, ops))
  {
    hide Step, Final;
    if ops == [] {
      FinalSame(s);
    } else {
      DocumentsAreFinal(s, ops[..|ops| - 1]);
      StepFinal(Run(s, ops[..|ops| - 1]), ops[|ops| - 1]);
      FinalTransitive(s, Run(s, ops[..|ops| - 1]), Run(s, ops));
    }
  }

  lemma FinalSame(s: Store)
    ensures Final(s, s)
  {
  }

  // ---------------------------------------------------------------- due days

  /** An order's charge is due by the order's terms, every other charge on the local day it was created. */
  predicate Dated(c: Charge, orders: map<int, Order>) {
    if c.kind == OrderCharge then
      c.sourceId in orders && Due(c.dueDate, orders[c.sourceId].deliveredAt, orders[c.sourceId].creditDays)
    else Due(c.dueDate, c.createdAt, 0)
  }

  ghost predicate AllDated(s: Store) {
    forall i :: 0 <= i < |s.books.charges| ==> Dated(s.books.charges[i], s.orders)
  }

  /** Whatever charge an operation adds is dated. */
  lemma NewIsDated(s: Store, op: Op)
    requires Try(s, op).Ok?
    ensures var s' := Step(s, op);
      forall i :: |s.books.charges| <= i < |s'.books.charges| ==> Dated(s'.books.charges[i], s'.orders)
  {
    hide Post, Unapplied, CreateOrderCharge, ConfirmPayment, RecordPayment, FinishPayment, ApproveAdjustment,
      CreateAdjustment, RejectAdjustment, CreateCreditNote, SetPartner;
    match op
    case OpDeliverOrder(order, id, now) =>
      DeliverOutcome(s, order, id, now);
      ChargeOutcome(s.(orders := s.orders[order := s.orders[order].(status := Delivered, deliveredAt := now)]),
                    order, id, now);
    case OpRepeatOrderCharge(order, id, now) => ChargeOutcome(s, order, id, now);
    case OpRecordPayment(p, payment, amount, user, confirm, id, now, allowed) =>
      RecordOutcome(s, p, payment, amount, user, confirm, id, now, allowed);
    case OpConfirmPayment(payment, expected, id, now, allowed) =>
      ConfirmOutcome(s, payment, expected, id, now, allowed);
    case OpRejectPayment(payment, expected, user, hasReason, allowed) =>
      FinishOutcome(s, payment, expected, PaymentRejected, user, hasReason, allowed);
    case OpCancelPayment(payment, expected, user, allowed) =>
      FinishOutcome(s, payment, expected, PaymentCancelled, user, false, allowed);
    case OpCreateAdjustment(p, adjustment, kind, amount, user, owner, id, now, allowed) =>
      CreateOutcome(s, p, adjustment, kind, amount, user, owner, id, now, allowed);
    case OpApproveAdjustment(adjustment, expected, user, id, now, allowed) =>
      ApproveOutcome(s, adjustment, expected, user, id, now, allowed);
    case OpRejectAdjustment(adjustment, expected, allowed) => RejectOutcome(s, adjustment, expected, allowed);
    case OpCreateCreditNote(p, amount, source, noteId, id, now) => NoteOutcome(s, p, amount, source, noteId, id, now);
    case OpSetPartner(p, target) => PartnerOutcome(s, p, target);
    case OpReadBalance(_) =>
    case OpEditOrder(_, _) =>
    case OpCloseOrder(_, _) =>
  }

  lemma StepDated(s: Store, op: Op)
    requires SourcesInv(s) && AllDated(s)
    ensures AllDated(Step(s, op))
  {
    hide Try;
    if Try(s, op).Ok? {
      var s' := Step(s, op);
      NewIsDated(s, op);
      StepFinal(s, op);
      FinanceTheorems.StepExtends(s, op);
      forall i | 0 <= i < |s.books.charges| ensures Dated(s'.books.charges[i], s'.orders) {
        assert SameCharge(s.books.charges[i], s'.books.charges[i]);
        assert Dated(s.books.charges[i], s.orders);
      }
    }
  }

  /**
   After any run: an order's charge falls due its credit days after the local day of the delivery, and a
   debit's or a refund's on the local day it was posted.
   */
  lemma {:induction false} ChargesFallDue(ops: seq<Op>)
    ensures AllDated(Reached(ops))
  {
    hide Step, AllDated, StoreInv;
    if ops == [] {
      NothingIsDue();
    } else {
      ChargesFallDue(ops[..|ops| - 1]);
      ReachedIsGood(ops[..|ops| - 1]);
      assert SourcesInv(Reached(ops[..|ops| - 1])) by { GoodSources(Reached(ops[..|ops| - 1])); }
      StepDated(Reached(ops[..|ops| - 1]), ops[|ops| - 1]);
    }
  }

  lemma NothingIsDue()
    ensures AllDated(Start())
  {
  }

  lemma GoodSources(s: Store)
    requires StoreInv(s)
    ensures SourcesInv(s)
  {
  }

  // ---------------------------------------------------------------- stamps and turns

  /** After any run a charge's status is what its allocation says, and exactly the paid ones carry a time. */
  lemma ChargeStatusIsExact(ops: seq<Op>, i: nat)
    requires i < |Reached(ops).books.charges|
    ensures var c := Reached(ops).books.charges[i];
      && 0 <= c.allocatedAmount <= c.amount
      && (c.status == Unpaid <==> c.allocatedAmount == 0)
      && (c.status == PartiallyPaid <==> 0 < c.allocatedAmount < c.amount)
      && (c.status == Paid <==> c.allocatedAmount == c.amount)
      && (c.paidAt.Some? <==> c.allocatedAmount == c.amount)
  {
    hide Run, SourcesInv, SumsOk, PairsOk;
    ReachedIsGood(ops);
    assert ChargeOk(Reached(ops).books.charges[i]);
  }

  /** The step of a run is in turn: a new row means that every older item on its side is now exhausted. */
  lemma RunIsInTurn(ops: seq<Op>, op: Op, k: nat)
    requires |Reached(ops).books.allocations| <= k < |Step(Reached(ops), op).books.allocations|
    ensures var b := Step(Reached(ops), op).books;
      var row := b.allocations[k];
      && (forall x, y | 0 <= x < |b.charges| && 0 <= y < |b.charges| && b.charges[x].partnership == row.partnership
            && b.charges[y].partnership == row.partnership && b.charges[y].id == row.chargeId ::
            OlderCharge(b.charges[x], b.charges[y]) ==> b.charges[x].allocatedAmount == b.charges[x].amount)
      && (forall x, y | 0 <= x < |b.credits| && 0 <= y < |b.credits| && b.credits[x].partnership == row.partnership
            && b.credits[y].partnership == row.partnership && b.credits[y].id == row.creditId ::
            OlderCredit(b.credits[x], b.credits[y]) ==> b.credits[x].allocatedAmount == b.credits[x].amount)
  {
    hide Post, Run, Try, SourcesInv, OlderCharge, OlderCredit, AllocationInv, FreshId;
    var s := Reached(ops);
    ReachedIsGood(ops);
    if Try(s, op).Ok? {
      var c := ChangeOf(s, op);
      if c.Posted? { PostIsInTurn(s.books, c.q, c.item, c.id, c.sourceId, c.amount, c.now, k); }
    }
  }

  lemma ChangeOf(s: Store, op: Op) returns (c: Change)
    requires SourcesInv(s) && Try(s, op).Ok?
    ensures Changes(s.books, Step(s, op).books, c)
  {
    c := ChangeIsExact(s, op);
  }
}
