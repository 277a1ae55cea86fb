/** What holds after every run of the finance writer. */
module FinanceProofs {
  import opened Seqs
  import opened Fifo
  import opened Books
  import opened BooksProofs
  import opened Posting
  import opened Finance

  // ---------------------------------------------------------------- the invariant of the store

  ghost predicate HasCreditFor(b: Books, p: int, payment: int) {
    exists j :: 0 <= j < |b.credits| && b.credits[j].kind == PaymentCredit && b.credits[j].sourceId == payment
                && b.credits[j].partnership == p
  }

  ghost predicate HasEntryFor(b: Books, p: int, payment: int) {
    exists k :: 0 <= k < |b.ledger| && b.ledger[k].entryType == PaymentEntry && b.ledger[k].sourceId == payment
                && b.ledger[k].partnership == p
  }

  ghost predicate HasChargeFor(b: Books, p: int, order: int) {
    exists i :: 0 <= i < |b.charges| && b.charges[i].kind == OrderCharge && b.charges[i].sourceId == order
                && b.charges[i].partnership == p
  }

  /** An order charge belongs to a delivered order of the same partnership. */
  ghost predicate OrderChargesOk(b: Books, orders: map<int, Order>) {
    forall i :: 0 <= i < |b.charges| && b.charges[i].kind == OrderCharge ==>
      b.charges[i].sourceId in orders && IsDelivered(orders[b.charges[i].sourceId])
      && orders[b.charges[i].sourceId].partnership == b.charges[i].partnership
  }

  ghost predicate OrdersOk(b: Books, orders: map<int, Order>) {
    forall o :: o in orders && IsDelivered(orders[o]) ==>
      orders[o].total.Some? && (orders[o].total.value > 0 ==> HasChargeFor(b, orders[o].partnership, o))
  }

  ghost predicate PaymentsOk(b: Books, payments: map<int, Payment>) {
    forall id :: id in payments ==>
      PaymentAmount(payments[id].amount)
      && (payments[id].status == PaymentConfirmed ==>
            HasCreditFor(b, payments[id].partnership, id) && HasEntryFor(b, payments[id].partnership, id))
  }

  ghost predicate AdjustmentsOk(adjustments: map<int, Adjustment>) {
    forall id :: id in adjustments ==> FinancialAmount(adjustments[id].amount)
  }

  ghost predicate PartnersOk(s: Store) {
    forall p :: p in s.partners && HasTraded(s.partners[p]) ==> p in s.books.balances
  }

  /** Everything about the sources of the money: orders, payments, adjustments and partnerships. */
  ghost predicate SourcesInv(s: Store) {
    && OrderChargesOk(s.books, s.orders) && OrdersOk(s.books, s.orders)
    && PaymentsOk(s.books, s.payments) && AdjustmentsOk(s.adjustments) && PartnersOk(s)
  }

  ghost predicate StoreInv(s: Store) { BooksInv(s.books) && SourcesInv(s) }

  // ---------------------------------------------------------------- sources survive postings

  /** Rows that stay and entries that stay keep every source covered. */
  lemma SourcesStay(b: Books, b': Books, orders: map<int, Order>, payments: map<int, Payment>)
    requires OldRows(b, b') && |b.ledger| <= |b'.ledger| && b'.ledger[..|b.ledger|] == b.ledger
    ensures OrdersOk(b, orders) ==> OrdersOk(b', orders)
    ensures PaymentsOk(b, payments) ==> PaymentsOk(b', payments)
  {
  }

  lemma OrderChargesStay(b: Books, b': Books, orders: map<int, Order>)
    requires OrderChargesOk(b, orders) && OldRows(b, b')
    requires forall i :: |b.charges| <= i < |b'.charges| && b'.charges[i].kind == OrderCharge ==>
      b'.charges[i].sourceId in orders && IsDelivered(orders[b'.charges[i].sourceId])
      && orders[b'.charges[i].sourceId].partnership == b'.charges[i].partnership
    ensures OrderChargesOk(b', orders)
  {
  }

  lemma PostKeepsSources(s: Store, p: int, item: Item, id: int, sourceId: int, amount: int, now: int)
    requires SourcesInv(s)
    requires item.ChargeItem? && item.chargeKind == OrderCharge ==>
      sourceId in s.orders && IsDelivered(s.orders[sourceId]) && s.orders[sourceId].partnership == p
    ensures SourcesInv(s.(books := Post(s.books, p, item, id, sourceId, amount, now)))
  {
    hide Post;
    var b' := Post(s.books, p, item, id, sourceId, amount, now);
    PostShape(s.books, p, item, id, sourceId, amount, now);
    SourcesStay(s.books, b', s.orders, s.payments);
    OrderChargesStay(s.books, b', s.orders);
  }

  lemma LockKeepsSources(s: Store, p: int)
    requires SourcesInv(s)
    ensures SourcesInv(s.(books := Lock(s.books, p)))
  {
  }

  // ---------------------------------------------------------------- each operation: the sources

  /** The invariant but for one delivered order whose charge is being created. */
  ghost predicate DeliveringInv(s: Store, order: int) {
    && OrderChargesOk(s.books, s.orders) && OrdersOk(s.books, s.orders - {order})
    && PaymentsOk(s.books, s.payments) && AdjustmentsOk(s.adjustments) && PartnersOk(s)
    && order in s.orders && IsDelivered(s.orders[order])
  }

  lemma ChargedNow(s: Store, order: int, item: Item, chargeId: int, amount: int, now: int)
    requires OrderChargesOk(s.books, s.orders) && order in s.orders && IsDelivered(s.orders[order])
    requires item.ChargeItem? && item.chargeKind == OrderCharge
    ensures var b' := Post(s.books, s.orders[order].partnership, item, chargeId, order, amount, now);
      HasChargeFor(b', s.orders[order].partnership, order) && OrderChargesOk(b', s.orders)
  {
    hide Post;
    var b' := Post(s.books, s.orders[order].partnership, item, chargeId, order, amount, now);
    PostShape(s.books, s.orders[order].partnership, item, chargeId, order, amount, now);
    assert b'.charges[|s.books.charges|].sourceId == order;
    OrderChargesStay(s.books, b', s.orders);
  }

  ghost predicate Extends(b: Books, b': Books) {
    && OldRows(b, b')
    && |b.ledger| <= |b'.ledger| && b'.ledger[..|b.ledger|] == b.ledger
    && b.balances.Keys <= b'.balances.Keys
  }

  lemma PostExtends(b: Books, p: int, item: Item, id: int, sourceId: int, amount: int, now: int)
    ensures Extends(b, Post(b, p, item, id, sourceId, amount, now)) && Extends(b, Lock(b, p))
  {
    hide Post;
    PostShape(b, p, item, id, sourceId, amount, now);
  }

  lemma OrderChargeCovers(s: Store, order: int, chargeId: int, now: int)
    requires OrderChargesOk(s.books, s.orders) && order in s.orders && IsDelivered(s.orders[order])
    requires CreateOrderCharge(s, order, chargeId, now).Ok?
    ensures var s' := CreateOrderCharge(s, order, chargeId, now).value;
      && Extends(s.books, s'.books)
      && OrderChargesOk(s'.books, s.orders)
      && s.orders[order].total.Some?
      && (s.orders[order].total.value > 0 ==> HasChargeFor(s'.books, s.orders[order].partnership, order))
  {
    var o := s.orders[order];
    if HasOrderCharge(s.books, order) || o.total.value == 0 {
      ChargeRepeated(s, order);
    } else {
      var item := OrderItem(o);
      PostExtends(s.books, o.partnership, item, chargeId, order, o.total.value, now);
      ChargedNow(s, order, item, chargeId, o.total.value, now);
    }
  }

  lemma ChargeRepeated(s: Store, order: int)
    requires OrderChargesOk(s.books, s.orders) && order in s.orders
    ensures forall p :: Extends(s.books, Lock(s.books, p)) && OrderChargesOk(Lock(s.books, p), s.orders)
    ensures s.orders[order].total.Some? && HasOrderCharge(s.books, order) ==>
      forall p :: HasChargeFor(Lock(s.books, p), s.orders[order].partnership, order)
  {
  }

  lemma OrderChargeSources(s: Store, order: int, chargeId: int, now: int)
    requires DeliveringInv(s, order) && CreateOrderCharge(s, order, chargeId, now).Ok?
    ensures SourcesInv(CreateOrderCharge(s, order, chargeId, now).value)
  {
    var b, b' := s.books, CreateOrderCharge(s, order, chargeId, now).value.books;
    OrderChargeCovers(s, order, chargeId, now);
    SourcesStay(b, b', s.orders - {order}, s.payments);
    forall x | x in s.orders && IsDelivered(s.orders[x])
      ensures s.orders[x].total.Some? && (s.orders[x].total.value > 0 ==> HasChargeFor(b', s.orders[x].partnership, x))
    {
      if x != order { assert x in s.orders - {order}; }
    }
  }

  lemma DeliverSources(s: Store, order: int, chargeId: int, now: int)
    requires SourcesInv(s) && DeliverOrder(s, order, chargeId, now).Ok?
    ensures SourcesInv(DeliverOrder(s, order, chargeId, now).value)
  {
    var s' := s.(orders := s.orders[order := s.orders[order].(status := Delivered, deliveredAt := now)]);
    assert s'.orders - {order} == s.orders - {order};
    OrderChargeSources(s', order, chargeId, now);
  }

  lemma ConfirmSources(s: Store, payment: int, expected: nat, creditId: int, now: int, allowed: bool)
    requires SourcesInv(s) && ConfirmPayment(s, payment, expected, creditId, now, allowed).Ok?
    ensures SourcesInv(ConfirmPayment(s, payment, expected, creditId, now, allowed).value)
  {
    hide Post;
    var pay := s.payments[payment];
    var b' := Post(s.books, pay.partnership, CreditItem(PaymentCredit), creditId, payment, pay.amount, now);
    PostKeepsSources(s, pay.partnership, CreditItem(PaymentCredit), creditId, payment, pay.amount, now);
    PostShape(s.books, pay.partnership, CreditItem(PaymentCredit), creditId, payment, pay.amount, now);
    assert b'.credits[|s.books.credits|].sourceId == payment;
    assert HasCreditFor(b', pay.partnership, payment);
    assert b'.ledger[|s.books.ledger|].sourceId == payment;
    assert HasEntryFor(b', pay.partnership, payment);
  }

  lemma ApproveSources(s: Store, adjustment: int, expected: nat, user: int, itemId: int, now: int, allowed: bool)
    requires SourcesInv(s) && ApproveAdjustment(s, adjustment, expected, user, itemId, now, allowed).Ok?
    ensures SourcesInv(ApproveAdjustment(s, adjustment, expected, user, itemId, now, allowed).value)
  {
    var a := s.adjustments[adjustment];
    PostKeepsSources(s, a.partnership, ItemOf(a.kind, now), itemId, adjustment, a.amount, now);
  }

  lemma RecordSources(
      s: Store, p: int, payment: int, amount: int, user: int, confirm: bool, id: int, now: int, allowed: bool)
    requires SourcesInv(s) && RecordPayment(s, p, payment, amount, user, confirm, id, now, allowed).Ok?
    ensures SourcesInv(RecordPayment(s, p, payment, amount, user, confirm, id, now, allowed).value)
  {
    LockKeepsSources(s, p);
    var recorded := RecordPayment(s, p, payment, amount, user, false, id, now, allowed).value;
    assert SourcesInv(recorded);
    if confirm { ConfirmSources(recorded, payment, 1, id, now, true); }
  }

  lemma CreateAdjustmentSources(
      s: Store, p: int, adjustment: int, kind: AdjustmentKind, amount: int, user: int, owner: bool,
      id: int, now: int, allowed: bool)
    requires SourcesInv(s) && CreateAdjustment(s, p, adjustment, kind, amount, user, owner, id, now, allowed).Ok?
    ensures SourcesInv(CreateAdjustment(s, p, adjustment, kind, amount, user, owner, id, now, allowed).value)
  {
    LockKeepsSources(s, p);
    var created := CreateAdjustment(s, p, adjustment, kind, amount, user, false, id, now, allowed).value;
    assert SourcesInv(created);
    if owner { ApproveSources(created, adjustment, 1, user, id, now, true); }
  }

  lemma PartnerSources(s: Store, p: int, target: PartnerStatus)
    requires SourcesInv(s) && SetPartner(s, p, target).Ok?
    ensures SourcesInv(SetPartner(s, p, target).value)
  {
    hide Post, OldRows;
    LockKeepsSources(s, p);
  }

  lemma EditSources(s: Store, order: int, o: Order)
    requires SourcesInv(s) && EditOrder(s, order, o).Ok?
    ensures SourcesInv(EditOrder(s, order, o).value)
  {
  }

  lemma CloseSources(s: Store, order: int, status: OrderStatus)
    requires SourcesInv(s) && CloseOrder(s, order, status).Ok?
    ensures SourcesInv(CloseOrder(s, order, status).value)
  {
  }

  lemma FinishSources(
      s: Store, payment: int, expected: nat, target: PaymentStatus, user: int, hasReason: bool, allowed: bool)
    requires target in {PaymentRejected, PaymentCancelled}
    requires SourcesInv(s) && FinishPayment(s, payment, expected, target, user, hasReason, allowed).Ok?
    ensures SourcesInv(FinishPayment(s, payment, expected, target, user, hasReason, allowed).value)
  {
  }

  lemma StepSources(s: Store, op: Op)
    requires SourcesInv(s) && Try(s, op).Ok?
    ensures SourcesInv(Step(s, op))
  {
    hide Post;
    match op
    case OpDeliverOrder(order, id, now) => DeliverSources(s, order, id, now);
    case OpRepeatOrderCharge(order, id, now) => OrderChargeSources(s, order, id, now);
    case OpRecordPayment(p, payment, amount, user, confirm, id, now, allowed) =>
      RecordSources(s, p, payment, amount, user, confirm, id, now, allowed);
    case OpConfirmPayment(payment, expected, id, now, allowed) =>
      ConfirmSources(s, payment, expected, id, now, allowed);
    case OpCreateAdjustment(p, adjustment, kind, amount, user, owner, id, now, allowed) =>
      CreateAdjustmentSources(s, p, adjustment, kind, amount, user, owner, id, now, allowed);
    case OpApproveAdjustment(adjustment, expected, user, id, now, allowed) =>
      ApproveSources(s, adjustment, expected, user, id, now, allowed);
    case OpRejectAdjustment(adjustment, _, _) => LockKeepsSources(s, s.adjustments[adjustment].partnership);
    case OpCreateCreditNote(p, amount, source, noteId, id, now) =>
      LockKeepsSources(s, p);
      PostKeepsSources(s, p, CreditItem(CreditNoteCredit), id, noteId, amount, now);
    case OpReadBalance(p) => LockKeepsSources(s, p);
    case OpRejectPayment(payment, expected, user, hasReason, allowed) =>
      FinishSources(s, payment, expected, PaymentRejected, user, hasReason, allowed);
    case OpCancelPayment(payment, expected, user, allowed) =>
      FinishSources(s, payment, expected, PaymentCancelled, user, false, allowed);
    case OpSetPartner(p, target) => PartnerSources(s, p, target);
    case OpEditOrder(order, o) => EditSources(s, order, o);
    case OpCloseOrder(order, status) => CloseSources(s, order, status);
  }

  // ---------------------------------------------------------------- each operation: the books

  /** What an accepted operation did to the books. */
  datatype Change =
    | Kept
    | Locked(p: int)
    | Posted(q: int, item: Item, id: int, sourceId: int, amount: int, now: int)

  function Apply(b: Books, c: Change): Books {
    match c
    case Kept => b
    case Locked(p) => Lock(b, p)
    case Posted(p, item, id, sourceId, amount, now) => Post(b, p, item, id, sourceId, amount, now)
  }

  lemma LockTwice(b: Books, p: int, item: Item, id: int, sourceId: int, amount: int, now: int)
    ensures Post(Lock(b, p), p, item, id, sourceId, amount, now) == Post(b, p, item, id, sourceId, amount, now)
    ensures forall i: Item, x: int :: FreshId(Lock(b, p), i, x) == FreshId(b, i, x)
  {
  }

  ghost predicate Changes(b: Books, b': Books, c: Change) {
    b' == Apply(b, c) && (c.Posted? ==> FreshId(b, c.item, c.id) && c.amount > 0)
  }

  lemma OrderChange(s: Store, order: int, chargeId: int, now: int) returns (c: Change)
    requires order in s.orders && CreateOrderCharge(s, order, chargeId, now).Ok?
    ensures Changes(s.books, CreateOrderCharge(s, order, chargeId, now).value.books, c)
  {
    var o := s.orders[order];
    if HasOrderCharge(s.books, order) || o.total.value == 0 {
      c := Locked(o.partnership);
    } else {
      c := Posted(o.partnership, OrderItem(o), chargeId, order, o.total.value, now);
    }
  }

  lemma ConfirmChange(s: Store, payment: int, expected: nat, creditId: int, now: int, allowed: bool)
    returns (c: Change)
    requires PaymentsOk(s.books, s.payments) && ConfirmPayment(s, payment, expected, creditId, now, allowed).Ok?
    ensures Changes(s.books, ConfirmPayment(s, payment, expected, creditId, now, allowed).value.books, c)
    ensures c == Posted(s.payments[payment].partnership, CreditItem(PaymentCredit), creditId, payment,
                        s.payments[payment].amount, now)
  {
    var pay := s.payments[payment];
    c := Posted(pay.partnership, CreditItem(PaymentCredit), creditId, payment, pay.amount, now);
  }

  lemma RecordChange(
      s: Store, p: int, payment: int, amount: int, user: int, confirm: bool, id: int, now: int, allowed: bool)
    returns (c: Change)
    requires RecordPayment(s, p, payment, amount, user, confirm, id, now, allowed).Ok?
    ensures var s' := RecordPayment(s, p, payment, amount, user, confirm, id, now, allowed).value;
            && Changes(s.books, s'.books, c)
            && s' == s.(books := s'.books, payments := s.payments[payment := s'.payments[payment]])
            && s'.payments[payment].partnership == p && s'.payments[payment].amount == amount
            && (s'.payments[payment].status == PaymentConfirmed <==> confirm)
            && c == if confirm then Posted(p, CreditItem(PaymentCredit), id, payment, amount, now) else Locked(p)
  {
    hide Post, FreshId;
    LockTwice(s.books, p, CreditItem(PaymentCredit), id, payment, amount, now);
    c := if confirm then Posted(p, CreditItem(PaymentCredit), id, payment, amount, now) else Locked(p);
  }

  lemma ApproveChange(s: Store, adjustment: int, expected: nat, user: int, itemId: int, now: int, allowed: bool)
    returns (c: Change)
    requires AdjustmentsOk(s.adjustments)
    requires ApproveAdjustment(s, adjustment, expected, user, itemId, now, allowed).Ok?
    ensures Changes(s.books, ApproveAdjustment(s, adjustment, expected, user, itemId, now, allowed).value.books, c)
    ensures var a := s.adjustments[adjustment];
      c == Posted(a.partnership, ItemOf(a.kind, now), itemId, adjustment, a.amount, now)
  {
    var a := s.adjustments[adjustment];
    c := Posted(a.partnership, ItemOf(a.kind, now), itemId, adjustment, a.amount, now);
  }

  lemma CreateChange(
      s: Store, p: int, adjustment: int, kind: AdjustmentKind, amount: int, user: int, owner: bool,
      id: int, now: int, allowed: bool)
    returns (c: Change)
    requires CreateAdjustment(s, p, adjustment, kind, amount, user, owner, id, now, allowed).Ok?
    ensures var s' := CreateAdjustment(s, p, adjustment, kind, amount, user, owner, id, now, allowed).value;
            && Changes(s.books, s'.books, c)
            && s' == s.(books := s'.books, adjustments := s.adjustments[adjustment := s'.adjustments[adjustment]])
            && s'.adjustments[adjustment].partnership == p && s'.adjustments[adjustment].amount == amount
            && s'.adjustments[adjustment].kind == kind
            && (s'.adjustments[adjustment].status == Approved <==> owner)
            && c == if owner then Posted(p, ItemOf(kind, now), id, adjustment, amount, now) else Locked(p)
  {
    hide Post, FreshId;
    LockTwice(s.books, p, ItemOf(kind, now), id, adjustment, amount, now);
    c := if owner then Posted(p, ItemOf(kind, now), id, adjustment, amount, now) else Locked(p);
  }

  lemma NoteChange(s: Store, p: int, amount: int, source: int, noteId: int, id: int, now: int) returns (c: Change)
    requires CreateCreditNote(s, p, amount, source, noteId, id, now).Ok?
    ensures Changes(s.books, CreateCreditNote(s, p, amount, source, noteId, id, now).value.books, c)
  {
    c := if source in s.notes then Locked(p) else Posted(p, CreditItem(CreditNoteCredit), id, noteId, amount, now);
  }

  /** An accepted operation changes the books in one of three ways, with a fresh id and a positive amount. */
  lemma ChangeIsExact(s: Store, op: Op) returns (c: Change)
    requires Try(s, op).Ok?
    requires PaymentsOk(s.books, s.payments) && AdjustmentsOk(s.adjustments)
    ensures Changes(s.books, Step(s, op).books, c)
  {
    hide Post;
    match op
    case OpSetPartner(p, target) => c := if target == Active then Locked(p) else Kept;
    case OpEditOrder(_, _) => c := Kept;
    case OpCloseOrder(_, _) => c := Kept;
    case OpDeliverOrder(order, id, now) =>
      var delivered := s.orders[order].(status := Delivered, deliveredAt := now);
      c := OrderChange(s.(orders := s.orders[order := delivered]), order, id, now);
    case OpRepeatOrderCharge(order, id, now) => c := OrderChange(s, order, id, now);
    case OpRecordPayment(p, payment, amount, user, confirm, id, now, allowed) =>
      c := RecordChange(s, p, payment, amount, user, confirm, id, now, allowed);
    case OpConfirmPayment(payment, expected, id, now, allowed) =>
      c := ConfirmChange(s, payment, expected, id, now, allowed);
    case OpRejectPayment(payment, _, _, _, _) => c := Locked(s.payments[payment].partnership);
    case OpCancelPayment(payment, _, _, _) => c := Locked(s.payments[payment].partnership);
    case OpCreateAdjustment(p, adjustment, kind, amount, user, owner, id, now, allowed) =>
      c := CreateChange(s, p, adjustment, kind, amount, user, owner, id, now, allowed);
    case OpApproveAdjustment(adjustment, expected, user, id, now, allowed) =>
      c := ApproveChange(s, adjustment, expected, user, id, now, allowed);
    case OpRejectAdjustment(adjustment, _, _) => c := Locked(s.adjustments[adjustment].partnership);
    case OpCreateCreditNote(p, amount, source, noteId, id, now) =>
      c := NoteChange(s, p, amount, source, noteId, id, now);
    case OpReadBalance(p) => c := Locked(p);
  }

  lemma ChangeKeepsBooks(b: Books, c: Change)
    requires BooksInv(b)
    requires Changes(b, Apply(b, c), c)
    ensures BooksInv(Apply(b, c))
  {
    match c
    case Kept =>
    case Locked(p) => LockKeeps(b, p);
    case Posted(p, item, id, sourceId, amount, now) => PostKeepsBooks(b, p, item, id, sourceId, amount, now);
  }

  /** Every operation, accepted or refused, keeps the invariant. */
  lemma StepKeeps(s: Store, op: Op)
    requires StoreInv(s)
    ensures StoreInv(Step(s, op))
  {
    if Try(s, op).Ok? {
      StepSources(s, op);
      var c := ChangeIsExact(s, op);
      ChangeKeepsBooks(s.books, c);
    }
  }

  lemma {:induction false} RunKeeps(s: Store, ops: seq<Op>)
    requires StoreInv(s)
    ensures StoreInv(Run(s, ops))
  {
    if ops != [] {
      RunKeeps(s, ops[..|ops| - 1]);
      StepKeeps(Run(s, ops[..|ops| - 1]), ops[|ops| - 1]);
    }
  }

  function Reached(ops: seq<Op>): Store { Run(Start(), ops) }

  lemma ReachedIsGood(ops: seq<Op>)
    ensures StoreInv(Reached(ops))
  {
    EmptyIsGood();
    RunKeeps(Start(), ops);
  }

  ghost predicate Reachable(s: Store) { exists ops :: s == Reached(ops) }

  lemma ReachableIsGood(s: Store)
    requires Reachable(s)
    ensures StoreInv(s)
  {
    var ops :| s == Reached(ops);
    ReachedIsGood(ops);
  }

  lemma ReachableNext(s: Store, op: Op, next: Store)
    requires Reachable(s) && Try(s, op) == Ok(next)
    ensures Reachable(next)
  {
    ReachableStep(s, op);
  }

  lemma ReachableStep(s: Store, op: Op)
    requires Reachable(s)
    ensures Reachable(Step(s, op))
  {
    var ops :| s == Reached(ops);
    assert (ops + [op])[..|ops|] == ops;
    assert Reached(ops + [op]) == Step(s, op);
  }

  lemma ReachableAmounts(s: Store)
    requires Reachable(s)
    ensures forall id :: id in s.payments ==> s.payments[id].amount > 0
    ensures forall id :: id in s.adjustments ==> s.adjustments[id].amount > 0
  {
    ReachableIsGood(s);
  }
}
