/**
 What each finance operation does, row by row: when it is accepted, which document it writes and what it
 posts, and why it is refused. Amounts, limits and days are written out.
 */
module FinanceOutcomes {
  import opened Seqs
  import opened Books
  import opened Posting
  import opened Finance
  import opened FinanceProofs

  // ---------------------------------------------------------------- days and postings

  /** A local day begins at 19:00 UTC and lasts 86 400 seconds. */
  lemma LocalDateIs(instant: int)
    ensures 86_400 * LocalDate(instant) <= instant + 18_000 < 86_400 * (LocalDate(instant) + 1)
  {
  }

  /** `due` lies `days` after the local day of `instant`. */
  predicate Due(due: int, instant: int, days: int) {
    86_400 * (due - days) <= instant + 18_000 < 86_400 * (due - days + 1)
  }

  /** One charge and its entry, and no other item. */
  ghost predicate ChargeAdded(
      b: Books, b': Books, id: int, p: int, kind: ChargeKind, sourceId: int, amount: int, now: int, t: EntryType)
  {
    && |b'.charges| == |b.charges| + 1 && |b'.credits| == |b.credits|
    && b'.charges[|b.charges|].id == id && b'.charges[|b.charges|].partnership == p
    && b'.charges[|b.charges|].kind == kind && b'.charges[|b.charges|].sourceId == sourceId
    && b'.charges[|b.charges|].amount == amount && b'.charges[|b.charges|].createdAt == now
    && p in b'.balances && b'.ledger == b.ledger + [Entry(p, t, sourceId, amount, b'.balances[p].balance)]
  }

  /** One credit and its entry, and no other item. */
  ghost predicate CreditAdded(
      b: Books, b': Books, id: int, p: int, kind: CreditKind, sourceId: int, amount: int, now: int, t: EntryType)
  {
    && |b'.charges| == |b.charges| && |b'.credits| == |b.credits| + 1
    && b'.credits[|b.credits|].id == id && b'.credits[|b.credits|].partnership == p
    && b'.credits[|b.credits|].kind == kind && b'.credits[|b.credits|].sourceId == sourceId
    && b'.credits[|b.credits|].amount == amount && b'.credits[|b.credits|].createdAt == now
    && p in b'.balances && b'.ledger == b.ledger + [Entry(p, t, sourceId, amount, b'.balances[p].balance)]
  }

  /** At most a projection at zero is new. */
  ghost predicate OnlyLocks(b: Books, b': Books, p: int) {
    && b' == b.(balances := b'.balances)
    && b'.balances == if p in b.balances then b.balances else b.balances[p := Projection(0, 1)]
  }

  lemma PostAddsCharge(b: Books, p: int, kind: ChargeKind, due: int, id: int, sourceId: int, amount: int, now: int)
    ensures var b' := Post(b, p, ChargeItem(kind, due), id, sourceId, amount, now);
      && ChargeAdded(b, b', id, p, kind, sourceId, amount, now, EntryTypeOf(ChargeItem(kind, due)))
      && b'.charges[|b.charges|].dueDate == due
  {
    hide Post;
    PostShape(b, p, ChargeItem(kind, due), id, sourceId, amount, now);
  }

  lemma PostAddsCredit(b: Books, p: int, kind: CreditKind, id: int, sourceId: int, amount: int, now: int)
    ensures CreditAdded(b, Post(b, p, CreditItem(kind), id, sourceId, amount, now), id, p, kind, sourceId, amount, now,
                        EntryTypeOf(CreditItem(kind)))
  {
    hide Post;
    PostShape(b, p, CreditItem(kind), id, sourceId, amount, now);
  }

  predicate ChargeIdUnused(b: Books, id: int) { forall i :: 0 <= i < |b.charges| ==> b.charges[i].id != id }

  predicate CreditIdUnused(b: Books, id: int) { forall i :: 0 <= i < |b.credits| ==> b.credits[i].id != id }

  predicate Charged(b: Books, order: int) {
    exists i :: 0 <= i < |b.charges| && b.charges[i].kind == OrderCharge && b.charges[i].sourceId == order
  }

  // ---------------------------------------------------------------- orders

  /** Charging an order: once, for its total, due its credit days after the local day of the delivery. */
  lemma ChargeOutcome(s: Store, order: int, chargeId: int, now: int)
    requires order in s.orders
    ensures var o := s.orders[order];
      var r := CreateOrderCharge(s, order, chargeId, now);
      && (r.Ok? <==>
            && o.status in {Delivered, Disputed, Completed} && o.total.Some? && o.partnership in s.partners
            && (Charged(s.books, order) || o.total.value == 0
                || (0 < o.total.value <= 999_999_999_999 && 0 <= o.creditDays <= 180
                    && ChargeIdUnused(s.books, chargeId))))
      && (r.Ok? ==> r.value == s.(books := r.value.books))
      && (r.Ok? && (Charged(s.books, order) || o.total.value == 0) ==>
            OnlyLocks(s.books, r.value.books, o.partnership))
      && (r.Ok? && !Charged(s.books, order) && o.total.value != 0 ==>
            && ChargeAdded(s.books, r.value.books, chargeId, o.partnership, OrderCharge, order, o.total.value, now,
                           ChargeEntry)
            && Due(r.value.books.charges[|s.books.charges|].dueDate, o.deliveredAt, o.creditDays))
  {
    hide Post, ChargeAdded;
    var o := s.orders[order];
    if o.total.Some? {
      LocalDateIs(o.deliveredAt);
      PostAddsCharge(s.books, o.partnership, OrderCharge, OrderItem(o).dueDate, chargeId, order, o.total.value, now);
    }
  }

  /** An order is delivered once, at the time given, and charged in the same step or not delivered. */
  lemma DeliverOutcome(s: Store, order: int, chargeId: int, now: int)
    ensures var r := DeliverOrder(s, order, chargeId, now);
      && (order !in s.orders ==> r == Err(NotFound))
      && (order in s.orders && s.orders[order].status != NotDelivered ==> r == Err(InvalidTransition))
      && (order in s.orders && s.orders[order].status == NotDelivered ==>
            var t := s.(orders := s.orders[order := s.orders[order].(status := Delivered, deliveredAt := now)]);
            r == CreateOrderCharge(t, order, chargeId, now))
  {
  }

  /** Up to its delivery an order may be replaced; afterwards only disputed and completed. */
  lemma OrderOutcome(s: Store, order: int, o: Order, status: OrderStatus)
    ensures EditOrder(s, order, o).Ok? <==>
      o.status == NotDelivered && (order in s.orders ==> s.orders[order].status == NotDelivered)
    ensures EditOrder(s, order, o).Ok? ==> EditOrder(s, order, o).value == s.(orders := s.orders[order := o])
    ensures CloseOrder(s, order, status).Ok? <==>
      && order in s.orders
      && ((status == Disputed && s.orders[order].status == Delivered)
          || (status == Completed && s.orders[order].status in {Delivered, Disputed}))
    ensures CloseOrder(s, order, status).Ok? ==>
      CloseOrder(s, order, status).value == s.(orders := s.orders[order := s.orders[order].(status := status)])
  {
  }

  // ---------------------------------------------------------------- payments

  /** Confirming a pending payment of the expected version; its credit and entry carry its amount. */
  lemma ConfirmOutcome(s: Store, payment: int, expected: nat, creditId: int, now: int, allowed: bool)
    ensures var r := ConfirmPayment(s, payment, expected, creditId, now, allowed);
      var known := payment in s.payments && s.payments[payment].partnership in s.partners;
      && (r == Err(NotFound) <==> !known)
      && (r == Err(Refused) <==> known && !allowed)
      && (r == Err(VersionConflict) <==> known && allowed && s.payments[payment].version != expected)
      && (r == Err(PaymentNotPending) <==>
            known && allowed && s.payments[payment].version == expected
            && s.payments[payment].status != PaymentPending)
      && (r.Ok? <==>
            known && allowed && s.payments[payment].version == expected
            && s.payments[payment].status == PaymentPending && CreditIdUnused(s.books, creditId))
      && (r.Ok? ==>
            var pay := s.payments[payment];
            && r.value == s.(books := r.value.books,
                             payments := s.payments[payment :=
                               Payment(pay.partnership, pay.amount, PaymentConfirmed, pay.recordedBy, expected + 1)])
            && CreditAdded(s.books, r.value.books, creditId, pay.partnership, PaymentCredit, payment, pay.amount, now,
                           PaymentEntry))
  {
    hide Post, CreditAdded;
    if payment in s.payments {
      var pay := s.payments[payment];
      PostAddsCredit(s.books, pay.partnership, PaymentCredit, creditId, payment, pay.amount, now);
    }
  }

  /** A new payment is pending at version 1, or confirmed at version 2 when that was asked. */
  lemma RecordOutcome(
      s: Store, p: int, payment: int, amount: int, user: int, confirm: bool, creditId: int, now: int, allowed: bool)
    ensures var r := RecordPayment(s, p, payment, amount, user, confirm, creditId, now, allowed);
      && (r == Err(PaymentAmountInvalid) <==> !(0 < amount <= 1_000_000_000))
      && (r == Err(PartnershipNotActive) <==>
            0 < amount <= 1_000_000_000 && p in s.partners && (s.partners[p].Pending? || s.partners[p].Closed?))
      && (r.Ok? <==>
            && 0 < amount <= 1_000_000_000 && allowed
            && p in s.partners && s.partners[p] in {Active, Suspended, Terminated}
            && payment !in s.payments && (confirm ==> CreditIdUnused(s.books, creditId)))
      && (r.Ok? && !confirm ==>
            && r.value == s.(books := r.value.books,
                             payments := s.payments[payment := Payment(p, amount, PaymentPending, user, 1)])
            && OnlyLocks(s.books, r.value.books, p))
      && (r.Ok? && confirm ==>
            && r.value == s.(books := r.value.books,
                             payments := s.payments[payment := Payment(p, amount, PaymentConfirmed, user, 2)])
            && CreditAdded(s.books, r.value.books, creditId, p, PaymentCredit, payment, amount, now, PaymentEntry))
  {
    hide Post, CreditAdded;
    LockTwice(s.books, p, CreditItem(PaymentCredit), creditId, payment, amount, now);
    assert FreshId(Lock(s.books, p), CreditItem(PaymentCredit), creditId) == CreditIdUnused(s.books, creditId);
    PostAddsCredit(s.books, p, PaymentCredit, creditId, payment, amount, now);
  }

  /** Rejecting takes a reason, cancelling takes the recorder; both end a pending payment without a posting. */
  lemma FinishOutcome(
      s: Store, payment: int, expected: nat, target: PaymentStatus, user: int, hasReason: bool, allowed: bool)
    requires target in {PaymentRejected, PaymentCancelled}
    ensures var r := FinishPayment(s, payment, expected, target, user, hasReason, allowed);
      var known := payment in s.payments && s.payments[payment].partnership in s.partners;
      && (r == Err(NotFound) <==> !known)
      && (r == Err(VersionConflict) <==>
            && known && allowed && (target == PaymentCancelled ==> s.payments[payment].recordedBy == user)
            && s.payments[payment].version != expected)
      && (r == Err(PaymentNotPending) <==>
            && known && allowed && (target == PaymentCancelled ==> s.payments[payment].recordedBy == user)
            && s.payments[payment].version == expected && s.payments[payment].status != PaymentPending)
      && (r.Ok? <==>
            && known && allowed && s.payments[payment].version == expected
            && s.payments[payment].status == PaymentPending
            && (target == PaymentCancelled ==> s.payments[payment].recordedBy == user)
            && (target == PaymentRejected ==> hasReason))
      && (r.Ok? ==>
            var pay := s.payments[payment];
            && r.value == s.(books := r.value.books,
                             payments := s.payments[payment :=
                               Payment(pay.partnership, pay.amount, target, pay.recordedBy, expected + 1)])
            && OnlyLocks(s.books, r.value.books, pay.partnership))
  {
  }

  /** The operations: rejecting leaves a payment rejected, cancelling leaves it cancelled. */
  lemma EndOutcome(s: Store, payment: int, expected: nat, user: int, hasReason: bool, allowed: bool)
    ensures var r := Try(s, OpRejectPayment(payment, expected, user, hasReason, allowed));
      r.Ok? ==> hasReason && r.value.payments[payment].status == PaymentRejected
    ensures var r := Try(s, OpCancelPayment(payment, expected, user, allowed));
      r.Ok? ==> s.payments[payment].recordedBy == user && r.value.payments[payment].status == PaymentCancelled
  {
  }

  // ---------------------------------------------------------------- adjustments

  /** What an adjustment posts: a credit, or a charge due on the local day of its approval. */
  ghost predicate AdjustmentPosted(b: Books, b': Books, id: int, a: Adjustment, adjustment: int, now: int) {
    match a.kind
    case CreditAdjustment =>
      CreditAdded(b, b', id, a.partnership, AdjustmentCredit, adjustment, a.amount, now, CreditEntry)
    case DebitAdjustment =>
      && ChargeAdded(b, b', id, a.partnership, AdjustmentCharge, adjustment, a.amount, now, DebitEntry)
      && Due(b'.charges[|b.charges|].dueDate, now, 0)
    case RefundAdjustment =>
      && ChargeAdded(b, b', id, a.partnership, RefundCharge, adjustment, a.amount, now, RefundEntry)
      && Due(b'.charges[|b.charges|].dueDate, now, 0)
  }

  lemma AdjustmentPosts(b: Books, id: int, a: Adjustment, adjustment: int, now: int)
    ensures AdjustmentPosted(b, Post(b, a.partnership, ItemOf(a.kind, now), id, adjustment, a.amount, now),
                             id, a, adjustment, now)
  {
    hide Post, ChargeAdded, CreditAdded;
    LocalDateIs(now);
    match a.kind
    case CreditAdjustment => PostAddsCredit(b, a.partnership, AdjustmentCredit, id, adjustment, a.amount, now);
    case DebitAdjustment =>
      PostAddsCharge(b, a.partnership, AdjustmentCharge, LocalDate(now), id, adjustment, a.amount, now);
    case RefundAdjustment =>
      PostAddsCharge(b, a.partnership, RefundCharge, LocalDate(now), id, adjustment, a.amount, now);
  }

  predicate ItemIdUnused(b: Books, kind: AdjustmentKind, id: int) {
    if kind == CreditAdjustment then CreditIdUnused(b, id) else ChargeIdUnused(b, id)
  }

  /** Approval needs the expected version and, for a refund, as much unapplied credit as it returns. */
  lemma ApproveOutcome(s: Store, adjustment: int, expected: nat, user: int, itemId: int, now: int, allowed: bool)
    ensures var r := ApproveAdjustment(s, adjustment, expected, user, itemId, now, allowed);
      var known := adjustment in s.adjustments && s.adjustments[adjustment].partnership in s.partners;
      && (r == Err(Refused) <==> !allowed)
      && (r == Err(NotFound) <==> allowed && !known)
      && (r == Err(VersionConflict) <==> allowed && known && s.adjustments[adjustment].version != expected)
      && (r == Err(InvalidTransition) <==>
            && allowed && known && s.adjustments[adjustment].version == expected
            && s.adjustments[adjustment].status != PendingApproval)
      && (r == Err(RefundExceedsCredit) <==>
            && allowed && known && s.adjustments[adjustment].version == expected
            && s.adjustments[adjustment].status == PendingApproval
            && s.adjustments[adjustment].kind == RefundAdjustment
            && s.adjustments[adjustment].amount > Unapplied(s.books, s.adjustments[adjustment].partnership))
      && (r.Ok? <==>
            && allowed && known && s.adjustments[adjustment].version == expected
            && s.adjustments[adjustment].status == PendingApproval
            && (s.adjustments[adjustment].kind == RefundAdjustment ==>
                  s.adjustments[adjustment].amount <= Unapplied(s.books, s.adjustments[adjustment].partnership))
            && ItemIdUnused(s.books, s.adjustments[adjustment].kind, itemId))
      && (r.Ok? ==>
            var a := s.adjustments[adjustment];
            && r.value == s.(books := r.value.books,
                             adjustments := s.adjustments[adjustment :=
                               Adjustment(a.partnership, a.kind, a.amount, Approved, a.createdBy, a.createdBy == user,
                                          expected + 1)])
            && AdjustmentPosted(s.books, r.value.books, itemId, a, adjustment, now))
  {
    hide Post, AdjustmentPosted, Unapplied;
    if adjustment in s.adjustments { AdjustmentPosts(s.books, itemId, s.adjustments[adjustment], adjustment, now); }
  }

  /** An adjustment waits for approval; an owner's is approved, by its creator, in the same step or not created. */
  lemma CreateOutcome(
      s: Store, p: int, adjustment: int, kind: AdjustmentKind, amount: int, user: int, owner: bool,
      itemId: int, now: int, allowed: bool)
    ensures var r := CreateAdjustment(s, p, adjustment, kind, amount, user, owner, itemId, now, allowed);
      && (r.Ok? <==>
            && allowed && 0 < amount <= 999_999_999_999 && p in s.partners && adjustment !in s.adjustments
            && (owner ==> (kind == RefundAdjustment ==> amount <= Unapplied(s.books, p))
                          && ItemIdUnused(s.books, kind, itemId)))
      && (r.Ok? && !owner ==>
            && r.value == s.(books := r.value.books,
                             adjustments := s.adjustments[adjustment :=
                               Adjustment(p, kind, amount, PendingApproval, user, false, 1)])
            && OnlyLocks(s.books, r.value.books, p))
      && (r.Ok? && owner ==>
            var a := Adjustment(p, kind, amount, Approved, user, true, 2);
            && r.value == s.(books := r.value.books, adjustments := s.adjustments[adjustment := a])
            && AdjustmentPosted(s.books, r.value.books, itemId, a, adjustment, now))
  {
    hide Post, AdjustmentPosted, Unapplied;
    var a := Adjustment(p, kind, amount, Approved, user, true, 2);
    LockTwice(s.books, p, ItemOf(kind, now), itemId, adjustment, amount, now);
    LockUnapplied(s.books, p);
    AdjustmentPosts(s.books, itemId, a, adjustment, now);
  }

  lemma LockUnapplied(b: Books, p: int)
    ensures Unapplied(Lock(b, p), p) == Unapplied(b, p)
  {
  }

  lemma RejectOutcome(s: Store, adjustment: int, expected: nat, allowed: bool)
    ensures var r := RejectAdjustment(s, adjustment, expected, allowed);
      && (r.Ok? <==>
            && allowed && adjustment in s.adjustments && s.adjustments[adjustment].partnership in s.partners
            && s.adjustments[adjustment].version == expected
            && s.adjustments[adjustment].status == PendingApproval)
      && (r.Ok? ==>
            var a := s.adjustments[adjustment];
            && r.value == s.(books := r.value.books,
                             adjustments := s.adjustments[adjustment :=
                               Adjustment(a.partnership, a.kind, a.amount, NotApproved, a.createdBy, a.selfApproved,
                                          expected + 1)])
            && OnlyLocks(s.books, r.value.books, a.partnership))
  {
  }

  // ---------------------------------------------------------------- credit notes and partnerships

  /** One note a source; the same again posts nothing, and another amount or store is a mismatch. */
  lemma NoteOutcome(s: Store, p: int, amount: int, source: int, noteId: int, creditId: int, now: int)
    ensures var r := CreateCreditNote(s, p, amount, source, noteId, creditId, now);
      var valid := 0 < amount <= 999_999_999_999 && p in s.partners;
      && (r == Err(SourceMismatch) <==>
            valid && source in s.notes && (s.notes[source].partnership != p || s.notes[source].amount != amount))
      && (r.Ok? <==>
            && valid
            && (source in s.notes ==> s.notes[source].partnership == p && s.notes[source].amount == amount)
            && (source !in s.notes ==>
                  (forall k :: k in s.notes ==> s.notes[k].id != noteId) && CreditIdUnused(s.books, creditId)))
      && (r.Ok? && source in s.notes ==>
            r.value == s.(books := r.value.books) && OnlyLocks(s.books, r.value.books, p))
      && (r.Ok? && source !in s.notes ==>
            && r.value == s.(books := r.value.books, notes := s.notes[source := CreditNote(noteId, p, amount)])
            && CreditAdded(s.books, r.value.books, creditId, p, CreditNoteCredit, noteId, amount, now, CreditNoteEntry))
  {
    hide Post, CreditAdded;
    PostAddsCredit(s.books, p, CreditNoteCredit, creditId, noteId, amount, now);
  }

  /** Invited, then active or closed; suspended and active again; terminated for good. */
  lemma PartnerOutcome(s: Store, p: int, target: PartnerStatus)
    ensures var r := SetPartner(s, p, target);
      && (r.Ok? <==>
            if p !in s.partners then target == Pending
            else (s.partners[p], target) in {(Pending, Active), (Pending, Closed), (Active, Suspended),
                                             (Suspended, Active), (Active, Terminated), (Suspended, Terminated)})
      && (r.Ok? ==> r.value == s.(books := r.value.books, partners := s.partners[p := target]))
      && (r.Ok? && target == Active ==> OnlyLocks(s.books, r.value.books, p))
      && (r.Ok? && target != Active ==> r.value.books == s.books)
  {
  }
}
