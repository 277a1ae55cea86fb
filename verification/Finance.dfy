/**
 The finance writer as functions over the stored rows: one function per operation, each either an
 error (its savepoint is rolled back) or the next state. Answers of permissions, terms, subscription
 guards and request validation arrive as the `allowed` argument.
 */
module Finance {
  import opened Seqs
  import opened Fifo
  import opened Books

  datatype PaymentStatus = PaymentPending | PaymentConfirmed | PaymentRejected | PaymentCancelled

  datatype Payment = Payment(partnership: int, amount: int, status: PaymentStatus, recordedBy: int, version: nat)

  datatype AdjustmentKind = DebitAdjustment | CreditAdjustment | RefundAdjustment

  datatype AdjustmentStatus = PendingApproval | Approved | NotApproved

  datatype Adjustment = Adjustment(
    partnership: int, kind: AdjustmentKind, amount: int, status: AdjustmentStatus, createdBy: int,
    selfApproved: bool, version: nat)

  datatype CreditNote = CreditNote(id: int, partnership: int, amount: int)

  datatype OrderStatus = NotDelivered | Delivered | Disputed | Completed

  datatype Order = Order(partnership: int, total: Option<int>, creditDays: int, status: OrderStatus, deliveredAt: int)

  datatype PartnerStatus = Pending | Active | Suspended | Terminated | Closed

  /** Payments, adjustments and orders by id, credit notes by their source (both unique). */
  datatype Store = Store(
    books: Books, payments: map<int, Payment>, adjustments: map<int, Adjustment>, notes: map<int, CreditNote>,
    orders: map<int, Order>, partners: map<int, PartnerStatus>)

  datatype Error =
    | NotFound | Refused | VersionConflict | PaymentNotPending | InvalidTransition | PaymentAmountInvalid
    | AmountInvalid | PartnershipNotActive | RefundExceedsCredit | SourceMismatch | CreditDaysInvalid
    | IntegrityError

  const MAX_PAYMENT := 1_000_000_000
  const MAX_AMOUNT := 999_999_999_999

  /** The day number of an instant in seconds; the finance time zone is five hours ahead of UTC. */
  function LocalDate(instant: int): int { (instant + 18_000) / 86_400 }

  predicate PaymentAmount(amount: int) { 0 < amount <= MAX_PAYMENT }

  predicate FinancialAmount(amount: int) { 0 < amount <= MAX_AMOUNT }

  predicate IsDelivered(o: Order) { o.status in {Delivered, Disputed, Completed} }

  predicate HasTraded(status: PartnerStatus) { status in {Active, Suspended, Terminated} }

  predicate HasOrderCharge(b: Books, order: int) {
    exists i :: 0 <= i < |b.charges| && b.charges[i].kind == OrderCharge && b.charges[i].sourceId == order
  }

  // ---------------------------------------------------------------- order charges

  /** Due on the local delivery day plus the credit days the order froze. */
  function OrderItem(o: Order): Item { ChargeItem(OrderCharge, LocalDate(o.deliveredAt) + o.creditDays) }

  function CreateOrderCharge(s: Store, order: int, chargeId: int, now: int): Result<Store, Error>
    requires order in s.orders
  {
    var o := s.orders[order];
    if !IsDelivered(o) || o.total.None? then Err(InvalidTransition)
    else if o.partnership !in s.partners then Err(NotFound)
    else if HasOrderCharge(s.books, order) || o.total.value == 0 then
      Ok(s.(books := Lock(s.books, o.partnership)))
    else if !FinancialAmount(o.total.value) then Err(AmountInvalid)
    else if !(0 <= o.creditDays <= 180) then Err(CreditDaysInvalid)
    else
      if !FreshId(s.books, OrderItem(o), chargeId) then Err(IntegrityError)
      else Ok(s.(books := Post(s.books, o.partnership, OrderItem(o), chargeId, order, o.total.value, now)))
  }

  /** The delivered transition and the charge share one transaction. */
  function DeliverOrder(s: Store, order: int, chargeId: int, now: int): Result<Store, Error> {
    if order !in s.orders then Err(NotFound)
    else if s.orders[order].status != NotDelivered then Err(InvalidTransition)
    else
      var delivered := s.orders[order].(status := Delivered, deliveredAt := now);
      CreateOrderCharge(s.(orders := s.orders[order := delivered]), order, chargeId, now)
  }

  /** Before delivery an order may change freely. */
  function EditOrder(s: Store, order: int, o: Order): Result<Store, Error> {
    if o.status != NotDelivered || (order in s.orders && s.orders[order].status != NotDelivered) then
      Err(InvalidTransition)
    else Ok(s.(orders := s.orders[order := o]))
  }

  function CloseOrder(s: Store, order: int, status: OrderStatus): Result<Store, Error> {
    if order !in s.orders then Err(NotFound)
    else
      var before := s.orders[order].status;
      if (status == Disputed && before == Delivered) || (status == Completed && before in {Delivered, Disputed}) then
        Ok(s.(orders := s.orders[order := s.orders[order].(status := status)]))
      else Err(InvalidTransition)
  }

  // ---------------------------------------------------------------- payments

  function ConfirmPayment(
      s: Store, payment: int, expected: nat, creditId: int, now: int, allowed: bool): Result<Store, Error>
  {
    if payment !in s.payments then Err(NotFound)
    else
      var pay := s.payments[payment];
      if pay.partnership !in s.partners then Err(NotFound)
      else if !allowed then Err(Refused)
      else if pay.version != expected then Err(VersionConflict)
      else if pay.status != PaymentPending then Err(PaymentNotPending)
      else if !FreshId(s.books, CreditItem(PaymentCredit), creditId) then Err(IntegrityError)
      else
        Ok(s.(payments := s.payments[payment := pay.(status := PaymentConfirmed, version := pay.version + 1)],
              books := Post(s.books, pay.partnership, CreditItem(PaymentCredit), creditId, payment, pay.amount, now)))
  }

  /** Recording locks the balance row; `confirm` confirms in the same savepoint. */
  function RecordPayment(
      s: Store, p: int, payment: int, amount: int, user: int, confirm: bool, creditId: int, now: int, allowed: bool)
    : Result<Store, Error>
  {
    if !PaymentAmount(amount) then Err(PaymentAmountInvalid)
    else if p !in s.partners then Err(NotFound)
    else if !HasTraded(s.partners[p]) then Err(PartnershipNotActive)
    else if !allowed then Err(Refused)
    else if payment in s.payments then Err(IntegrityError)
    else
      var recorded := s.(books := Lock(s.books, p),
                         payments := s.payments[payment := Payment(p, amount, PaymentPending, user, 1)]);
      if confirm then ConfirmPayment(recorded, payment, 1, creditId, now, true) else Ok(recorded)
  }

  function FinishPayment(
      s: Store, payment: int, expected: nat, target: PaymentStatus, user: int, hasReason: bool, allowed: bool)
    : Result<Store, Error>
    requires target in {PaymentRejected, PaymentCancelled}
  {
    if payment !in s.payments then Err(NotFound)
    else
      var pay := s.payments[payment];
      if pay.partnership !in s.partners then Err(NotFound)
      else if !allowed || (target == PaymentCancelled && pay.recordedBy != user) then Err(Refused)
      else if pay.version != expected then Err(VersionConflict)
      else if pay.status != PaymentPending then Err(PaymentNotPending)
      else if target == PaymentRejected && !hasReason then Err(Refused)
      else
        Ok(s.(payments := s.payments[payment := pay.(status := target, version := pay.version + 1)],
              books := Lock(s.books, pay.partnership)))
  }

  // ---------------------------------------------------------------- adjustments

  function ItemOf(kind: AdjustmentKind, now: int): Item {
    match kind
    case CreditAdjustment => CreditItem(AdjustmentCredit)
    case DebitAdjustment => ChargeItem(AdjustmentCharge, LocalDate(now))
    case RefundAdjustment => ChargeItem(RefundCharge, LocalDate(now))
  }

  function ApproveAdjustment(
      s: Store, adjustment: int, expected: nat, user: int, itemId: int, now: int, allowed: bool): Result<Store, Error>
  {
    if !allowed then Err(Refused)
    else if adjustment !in s.adjustments then Err(NotFound)
    else
      var a := s.adjustments[adjustment];
      if a.partnership !in s.partners then Err(NotFound)
      else if a.version != expected then Err(VersionConflict)
      else if a.status != PendingApproval then Err(InvalidTransition)
      else if a.kind == RefundAdjustment && a.amount > Unapplied(s.books, a.partnership) then Err(RefundExceedsCredit)
      else if !FreshId(s.books, ItemOf(a.kind, now), itemId) then Err(IntegrityError)
      else
        var approved := a.(status := Approved, selfApproved := a.createdBy == user, version := a.version + 1);
        Ok(s.(adjustments := s.adjustments[adjustment := approved],
              books := Post(s.books, a.partnership, ItemOf(a.kind, now), itemId, adjustment, a.amount, now)))
  }

  /** An owner's adjustment is approved in the same savepoint. */
  function CreateAdjustment(
      s: Store, p: int, adjustment: int, kind: AdjustmentKind, amount: int, user: int, owner: bool,
      itemId: int, now: int, allowed: bool): Result<Store, Error>
  {
    if !allowed then Err(Refused)
    else if !FinancialAmount(amount) then Err(AmountInvalid)
    else if p !in s.partners then Err(NotFound)
    else if adjustment in s.adjustments then Err(IntegrityError)
    else
      var created := s.(books := Lock(s.books, p),
                        adjustments := s.adjustments[adjustment :=
                          Adjustment(p, kind, amount, PendingApproval, user, false, 1)]);
      if owner then ApproveAdjustment(created, adjustment, 1, user, itemId, now, true) else Ok(created)
  }

  function RejectAdjustment(s: Store, adjustment: int, expected: nat, allowed: bool): Result<Store, Error> {
    if !allowed then Err(Refused)
    else if adjustment !in s.adjustments then Err(NotFound)
    else
      var a := s.adjustments[adjustment];
      if a.partnership !in s.partners then Err(NotFound)
      else if a.version != expected then Err(VersionConflict)
      else if a.status != PendingApproval then Err(InvalidTransition)
      else
        Ok(s.(adjustments := s.adjustments[adjustment := a.(status := NotApproved, version := a.version + 1)],
              books := Lock(s.books, a.partnership)))
  }

  // ---------------------------------------------------------------- credit notes and locks

  /** The primary key of the notes, which are stored here by their source. */
  predicate NoteTaken(notes: map<int, CreditNote>, id: int) { exists k :: k in notes && notes[k].id == id }

  function CreateCreditNote(
      s: Store, p: int, amount: int, source: int, noteId: int, creditId: int, now: int): Result<Store, Error>
  {
    if !FinancialAmount(amount) then Err(AmountInvalid)
    else if p !in s.partners then Err(NotFound)
    else if source in s.notes then
      if s.notes[source].partnership != p || s.notes[source].amount != amount then Err(SourceMismatch)
      else Ok(s.(books := Lock(s.books, p)))
    else if NoteTaken(s.notes, noteId) || !FreshId(s.books, CreditItem(CreditNoteCredit), creditId) then
      Err(IntegrityError)
    else
      Ok(s.(notes := s.notes[source := CreditNote(noteId, p, amount)],
            books := Post(s.books, p, CreditItem(CreditNoteCredit), creditId, noteId, amount, now)))
  }

  /** Every reader of a balance takes (and so creates) the projection row. */
  function ReadBalance(s: Store, p: int): Result<Store, Error> {
    if p !in s.partners then Err(NotFound) else Ok(s.(books := Lock(s.books, p)))
  }

  /** Partnership transitions; becoming active creates the projection in the same transaction. */
  function SetPartner(s: Store, p: int, target: PartnerStatus): Result<Store, Error> {
    if p !in s.partners then
      if target == Pending then Ok(s.(partners := s.partners[p := Pending])) else Err(NotFound)
    else
      var before := s.partners[p];
      if (before == Pending && target == Active) || (before == Suspended && target == Active) then
        Ok(s.(partners := s.partners[p := Active], books := Lock(s.books, p)))
      else if (before == Pending && target == Closed) || (before == Active && target == Suspended)
        || (before in {Active, Suspended} && target == Terminated) then
        Ok(s.(partners := s.partners[p := target]))
      else Err(InvalidTransition)
  }

  // ---------------------------------------------------------------- runs

  datatype Op =
    | OpSetPartner(p: int, target: PartnerStatus)
    | OpEditOrder(order: int, newOrder: Order)
    | OpDeliverOrder(order: int, itemId: int, now: int)
    | OpRepeatOrderCharge(order: int, itemId: int, now: int)
    | OpCloseOrder(order: int, status: OrderStatus)
    | OpRecordPayment(p: int, payment: int, amount: int, user: int, confirm: bool, itemId: int, now: int, allowed: bool)
    | OpConfirmPayment(payment: int, expected: nat, itemId: int, now: int, allowed: bool)
    | OpRejectPayment(payment: int, expected: nat, user: int, hasReason: bool, allowed: bool)
    | OpCancelPayment(payment: int, expected: nat, user: int, allowed: bool)
    | OpCreateAdjustment(p: int, adjustment: int, kind: AdjustmentKind, amount: int, user: int, owner: bool,
                         itemId: int, now: int, allowed: bool)
    | OpApproveAdjustment(adjustment: int, expected: nat, user: int, itemId: int, now: int, allowed: bool)
    | OpRejectAdjustment(adjustment: int, expected: nat, allowed: bool)
    | OpCreateCreditNote(p: int, amount: int, source: int, noteId: int, itemId: int, now: int)
    | OpReadBalance(p: int)

  function Try(s: Store, op: Op): Result<Store, Error> {
    match op
    case OpSetPartner(p, target) => SetPartner(s, p, target)
    case OpEditOrder(order, newOrder) => EditOrder(s, order, newOrder)
    case OpDeliverOrder(order, id, now) => DeliverOrder(s, order, id, now)
    case OpRepeatOrderCharge(order, id, now) =>
      if order in s.orders then CreateOrderCharge(s, order, id, now) else Err(NotFound)
    case OpCloseOrder(order, status) => CloseOrder(s, order, status)
    case OpRecordPayment(p, payment, amount, user, confirm, id, now, allowed) =>
      RecordPayment(s, p, payment, amount, user, confirm, id, now, allowed)
    case OpConfirmPayment(payment, expected, id, now, allowed) => ConfirmPayment(s, payment, expected, id, now, allowed)
    case OpRejectPayment(payment, expected, user, hasReason, allowed) =>
      FinishPayment(s, payment, expected, PaymentRejected, user, hasReason, allowed)
    case OpCancelPayment(payment, expected, user, allowed) =>
      FinishPayment(s, payment, expected, PaymentCancelled, user, false, allowed)
    case OpCreateAdjustment(p, adjustment, kind, amount, user, owner, id, now, allowed) =>
      CreateAdjustment(s, p, adjustment, kind, amount, user, owner, id, now, allowed)
    case OpApproveAdjustment(adjustment, expected, user, id, now, allowed) =>
      ApproveAdjustment(s, adjustment, expected, user, id, now, allowed)
    case OpRejectAdjustment(adjustment, expected, allowed) => RejectAdjustment(s, adjustment, expected, allowed)
    case OpCreateCreditNote(p, amount, source, noteId, id, now) =>
      CreateCreditNote(s, p, amount, source, noteId, id, now)
    case OpReadBalance(p) => ReadBalance(s, p)
  }

  function Step(s: Store, op: Op): Store {
    var r := Try(s, op);
    if r.Ok? then r.value else s
  }

  function Run(s: Store, ops: seq<Op>): Store {
    if ops == [] then s else Step(Run(s, ops[..|ops| - 1]), ops[|ops| - 1])
  }

  function Start(): Store { Store(Books([], [], [], [], map[]), map[], map[], map[], map[], map[]) }
}
