/**
 The finance service itself: an object whose tables its methods edit in place, row by row, in the
 order of the service's statements. Each method is proved to compute the function of the same name
 in `Finance`; an error leaves every table as it was.
 */
module FinanceService {
  import opened Seqs
  import Fifo
  import opened Books
  import opened BooksProofs
  import opened Posting
  import opened Finance
  import opened FinanceProofs

  /** A method either failed and changed nothing, or did what the function says. */
  predicate Matches(before: Store, spec: Result<Store, Error>, error: Option<Error>, after: Store) {
    match spec
    case Ok(next) => error.None? && after == next
    case Err(e) => error == Some(e) && after == before
  }

  lemma ConfirmAccepted(s: Store, payment: int, expected: nat, creditId: int, now: int)
    returns (next: Store, posted: Books)
    requires Reachable(s)
    requires payment in s.payments && s.payments[payment].partnership in s.partners
    requires s.payments[payment].version == expected && s.payments[payment].status == PaymentPending
    requires FreshId(s.books, CreditItem(PaymentCredit), creditId)
    ensures ConfirmPayment(s, payment, expected, creditId, now, true) == Ok(next)
    ensures Reachable(next)
    ensures var pay := s.payments[payment];
      && pay.amount > 0
      && posted == Post(s.books, pay.partnership, CreditItem(PaymentCredit), creditId, payment, pay.amount, now)
      && next == s.(payments := s.payments[payment := pay.(status := PaymentConfirmed, version := pay.version + 1)],
                    books := posted)
  {
    hide Post, Reachable;
    var pay := s.payments[payment];
    posted := Post(s.books, pay.partnership, CreditItem(PaymentCredit), creditId, payment, pay.amount, now);
    next := ConfirmPayment(s, payment, expected, creditId, now, true).value;
    ReachableNext(s, OpConfirmPayment(payment, expected, creditId, now, true), next);
    ReachableAmounts(s);
  }

  lemma ApproveAccepted(s: Store, adjustment: int, expected: nat, user: int, itemId: int, now: int)
    returns (next: Store, posted: Books)
    requires Reachable(s)
    requires adjustment in s.adjustments && s.adjustments[adjustment].partnership in s.partners
    requires s.adjustments[adjustment].version == expected && s.adjustments[adjustment].status == PendingApproval
    requires s.adjustments[adjustment].kind == RefundAdjustment ==>
      s.adjustments[adjustment].amount <= Unapplied(s.books, s.adjustments[adjustment].partnership)
    requires FreshId(s.books, ItemOf(s.adjustments[adjustment].kind, now), itemId)
    ensures ApproveAdjustment(s, adjustment, expected, user, itemId, now, true) == Ok(next)
    ensures Reachable(next)
    ensures var a := s.adjustments[adjustment];
      && a.amount > 0
      && posted == Post(s.books, a.partnership, ItemOf(a.kind, now), itemId, adjustment, a.amount, now)
      && next == s.(adjustments := s.adjustments[adjustment :=
                      a.(status := Approved, selfApproved := a.createdBy == user, version := a.version + 1)],
                    books := posted)
  {
    hide Post, Reachable;
    var a := s.adjustments[adjustment];
    posted := Post(s.books, a.partnership, ItemOf(a.kind, now), itemId, adjustment, a.amount, now);
    next := ApproveAdjustment(s, adjustment, expected, user, itemId, now, true).value;
    ReachableNext(s, OpApproveAdjustment(adjustment, expected, user, itemId, now, true), next);
    ReachableAmounts(s);
  }

  lemma NoteAccepted(s: Store, p: int, amount: int, source: int, noteId: int, creditId: int, now: int)
    requires FinancialAmount(amount) && p in s.partners && source !in s.notes && !NoteTaken(s.notes, noteId)
    requires FreshId(s.books, CreditItem(CreditNoteCredit), creditId)
    ensures CreateCreditNote(s, p, amount, source, noteId, creditId, now)
         == Ok(s.(notes := s.notes[source := CreditNote(noteId, p, amount)],
                  books := Post(s.books, p, CreditItem(CreditNoteCredit), creditId, noteId, amount, now)))
    ensures Reachable(s) ==> Reachable(CreateCreditNote(s, p, amount, source, noteId, creditId, now).value)
  {
    hide Post;
    if Reachable(s) { ReachableStep(s, OpCreateCreditNote(p, amount, source, noteId, creditId, now)); }
  }

  lemma ChargeAccepted(s: Store, order: int, chargeId: int, now: int)
    requires order in s.orders && IsDelivered(s.orders[order]) && s.orders[order].total.Some?
    requires s.orders[order].partnership in s.partners && !HasOrderCharge(s.books, order)
    requires FinancialAmount(s.orders[order].total.value) && 0 <= s.orders[order].creditDays <= 180
    requires FreshId(s.books, OrderItem(s.orders[order]), chargeId)
    ensures var o := s.orders[order];
      CreateOrderCharge(s, order, chargeId, now)
      == Ok(s.(books := Post(s.books, o.partnership, OrderItem(o), chargeId, order, o.total.value, now)))
  {
  }

  class Service {
    var charges: seq<Charge>
    var credits: seq<Credit>
    var allocations: seq<Allocation>
    var ledger: seq<Entry>
    var balances: map<int, Projection>
    var payments: map<int, Payment>
    var adjustments: map<int, Adjustment>
    var notes: map<int, CreditNote>
    var orders: map<int, Order>
    var partners: map<int, PartnerStatus>

    function Rows(): Books
      reads this
    {
      Books(charges, credits, allocations, ledger, balances)
    }

    function State(): Store
      reads this
    {
      Store(Rows(), payments, adjustments, notes, orders, partners)
    }

    /** The tables are what some run of operations leaves; so every invariant of `FinanceProofs` holds. */
    ghost predicate Valid()
      reads this
    {
      Reachable(State())
    }

    constructor ()
      ensures State() == Start() && Valid()
    {
      charges, credits, allocations, ledger, balances := [], [], [], [], map[];
      payments, adjustments, notes, orders, partners := map[], map[], map[], map[], map[];
      new;
      assert State() == Reached([]);
    }

    method LockRow(p: int)
      modifies this`balances
      ensures Rows() == Lock(old(Rows()), p)
    {
      if p !in balances {
        balances := balances[p := Projection(0, 1)];
      }
    }

    method PostEntry(p: int, entryType: EntryType, sourceId: int, amount: int)
      requires p in balances
      modifies this`ledger, this`balances
      ensures Rows() == PostLedger(old(Rows()), p, entryType, sourceId, amount)
    {
      var balance := balances[p];
      var after := if IsDebit(entryType) then balance.balance + amount else balance.balance - amount;
      ledger := ledger + [Entry(p, entryType, sourceId, amount, after)];
      balances := balances[p := Projection(after, balance.version + 1)];
    }

    /** Reads the open rows, plans, and writes the plan line by line. */
    method AllocateOpen(p: int, now: int)
      requires AllocationInv(Rows())
      modifies this`charges, this`credits, this`allocations
      ensures Rows() == Allocate(old(Rows()), p, now)
    {
      hide Filter, Fifo.Plan, ApplyLine, ApplyLines, AllocationInv, OpenChargeInputs, OpenCreditInputs;
      ghost var before := Rows();
      var openCharges, openCredits := OpenChargeInputs(Rows(), p), OpenCreditInputs(Rows(), p);
      AllocatingFrom(before, p, now);
      var planned := Fifo.AllocateFifo(openCharges, openCredits);
      var plan := planned.value;
      NoLines(before, p, plan, now);
      var k := 0;
      while k < |plan|
        invariant 0 <= k <= |plan|
        invariant Rows() == ApplyLines(before, p, plan[..k], now)
      {
        NextLine(before, p, plan, k, now);
        WriteLine(p, plan[k], now);
        k := k + 1;
      }
      assert plan[..k] == plan;
    }

    method WriteLine(p: int, line: Fifo.Line, now: int)
      modifies this`charges, this`credits, this`allocations
      ensures Rows() == ApplyLine(old(Rows()), p, line, now)
    {
      var i, j := ChargeIndex(charges, line.chargeId), CreditIndex(credits, line.creditId);
      if i.Some? && j.Some? {
        var charge, credit := charges[i.value], credits[j.value];
        allocations := allocations + [Allocation(p, charge.id, credit.id, line.amount)];
        var total := charge.allocatedAmount + line.amount;
        var status := StatusOf(charge.amount, total);
        charge := charge.(allocatedAmount := total, status := status);
        if status == Paid {
          charge := charge.(paidAt := Some(now));
        }
        charges := charges[i.value := charge];
        credits := credits[j.value := credit.(allocatedAmount := credit.allocatedAmount + line.amount)];
      }
    }

    /** The common end of every posting: the item is in, the entry and the allocation follow. */
    method PostCredit(ghost origin: Store, ghost posted: Books, p: int, kind: CreditKind,
                      id: int, sourceId: int, amount: int, now: int)
      requires Reachable(origin) && origin.books == Rows()
      requires FreshId(Rows(), CreditItem(kind), id) && amount > 0
      requires posted == Post(Rows(), p, CreditItem(kind), id, sourceId, amount, now)
      modifies this`charges, this`credits, this`allocations, this`ledger, this`balances
      ensures Rows() == posted
    {
      hide Filter, Allocate, Outstanding, Unapplied;
      ReachableIsGood(origin);
      PreparedAllocation(Rows(), p, CreditItem(kind), id, sourceId, amount, now);
      LockRow(p);
      credits := credits + [Credit(id, p, kind, sourceId, amount, now, 0)];
      PostEntry(p, EntryTypeOf(CreditItem(kind)), sourceId, amount);
      AllocateOpen(p, now);
    }

    method PostCharge(ghost origin: Store, ghost posted: Books, p: int, kind: ChargeKind, dueDate: int,
                      id: int, sourceId: int, amount: int, now: int)
      requires Reachable(origin) && origin.books == Rows()
      requires FreshId(Rows(), ChargeItem(kind, dueDate), id) && amount > 0
      requires posted == Post(Rows(), p, ChargeItem(kind, dueDate), id, sourceId, amount, now)
      modifies this`charges, this`credits, this`allocations, this`ledger, this`balances
      ensures Rows() == posted
    {
      hide Filter, Allocate, Outstanding, Unapplied;
      ReachableIsGood(origin);
      PreparedAllocation(Rows(), p, ChargeItem(kind, dueDate), id, sourceId, amount, now);
      LockRow(p);
      charges := charges + [Charge(id, p, kind, sourceId, amount, dueDate, now, 0, Unpaid, None)];
      PostEntry(p, EntryTypeOf(ChargeItem(kind, dueDate)), sourceId, amount);
      AllocateOpen(p, now);
    }

    /** The charge or the credit of an approved adjustment. */
    method PostItem(ghost origin: Store, ghost posted: Books, p: int, item: Item, id: int,
                    sourceId: int, amount: int, now: int)
      requires Reachable(origin) && origin.books == Rows()
      requires FreshId(Rows(), item, id) && amount > 0
      requires posted == Post(Rows(), p, item, id, sourceId, amount, now)
      modifies this`charges, this`credits, this`allocations, this`ledger, this`balances
      ensures Rows() == posted
    {
      match item
      case ChargeItem(kind, dueDate) => PostCharge(origin, posted, p, kind, dueDate, id, sourceId, amount, now);
      case CreditItem(kind) => PostCredit(origin, posted, p, kind, id, sourceId, amount, now);
    }

    method DoCreateOrderCharge(ghost origin: Store, order: int, chargeId: int, now: int) returns (error: Option<Error>)
      requires Reachable(origin) && origin.books == Rows() && order in orders
      modifies this
      ensures Matches(old(State()), CreateOrderCharge(old(State()), order, chargeId, now), error, State())
    {
      var o := orders[order];
      if !IsDelivered(o) || o.total.None? { return Some(InvalidTransition); }
      if o.partnership !in partners { return Some(NotFound); }
      if HasOrderCharge(Rows(), order) || o.total.value == 0 {
        LockRow(o.partnership);
        return None;
      }
      if !FinancialAmount(o.total.value) { return Some(AmountInvalid); }
      if !(0 <= o.creditDays <= 180) { return Some(CreditDaysInvalid); }
      if !FreshId(Rows(), OrderItem(o), chargeId) { return Some(IntegrityError); }
      ghost var before := State();
      ChargeAccepted(before, order, chargeId, now);
      ghost var posted := Post(before.books, o.partnership, OrderItem(o), chargeId, order, o.total.value, now);
      PostCharge(origin, posted, o.partnership, OrderCharge, OrderItem(o).dueDate, chargeId, order, o.total.value, now);
      error := None;
    }

    method DoDeliverOrder(order: int, chargeId: int, now: int) returns (error: Option<Error>)
      requires Valid()
      modifies this
      ensures Valid()
      ensures Matches(old(State()), DeliverOrder(old(State()), order, chargeId, now), error, State())
    {
      ghost var before := State();
      ReachableStep(before, OpDeliverOrder(order, chargeId, now));
      if order !in orders { return Some(NotFound); }
      var savepoint := orders;
      if orders[order].status != NotDelivered { return Some(InvalidTransition); }
      orders := orders[order := orders[order].(status := Delivered, deliveredAt := now)];
      error := DoCreateOrderCharge(before, order, chargeId, now);
      if error.Some? {
        orders := savepoint;
      }
    }

    method DoConfirmPayment(payment: int, expected: nat, creditId: int, now: int, allowed: bool)
      returns (error: Option<Error>)
      requires Valid()
      modifies this
      ensures Valid()
      ensures Matches(old(State()), ConfirmPayment(old(State()), payment, expected, creditId, now, allowed),
                      error, State())
    {
      hide Post, Reachable, FreshId;
      if payment !in payments { return Some(NotFound); }
      var pay := payments[payment];
      if pay.partnership !in partners { return Some(NotFound); }
      if !allowed { return Some(Refused); }
      if pay.version != expected { return Some(VersionConflict); }
      if pay.status != PaymentPending { return Some(PaymentNotPending); }
      if !FreshId(Rows(), CreditItem(PaymentCredit), creditId) { return Some(IntegrityError); }
      ghost var next, posted := ConfirmAccepted(State(), payment, expected, creditId, now);
      PostConfirmed(payment, creditId, now, posted);
      error := None;
    }

    /** The writes of an accepted confirmation. */
    method PostConfirmed(payment: int, creditId: int, now: int, ghost posted: Books)
      requires Valid() && payment in payments && payments[payment].amount > 0
      requires FreshId(Rows(), CreditItem(PaymentCredit), creditId)
      requires posted == Post(Rows(), payments[payment].partnership, CreditItem(PaymentCredit), creditId, payment,
                              payments[payment].amount, now)
      modifies this
      ensures var s := old(State());
        var pay := s.payments[payment];
        State() == s.(payments := s.payments[payment := pay.(status := PaymentConfirmed, version := pay.version + 1)],
                      books := posted)
    {
      hide Post, Reachable;
      ghost var before := State();
      var pay := payments[payment];
      payments := payments[payment := pay.(status := PaymentConfirmed, version := pay.version + 1)];
      PostCredit(before, posted, pay.partnership, PaymentCredit, creditId, payment, pay.amount, now);
    }

    method DoRecordPayment(
        p: int, payment: int, amount: int, user: int, confirm: bool, creditId: int, now: int, allowed: bool)
      returns (error: Option<Error>)
      requires Valid()
      modifies this
      ensures Valid()
      ensures Matches(old(State()),
                      RecordPayment(old(State()), p, payment, amount, user, confirm, creditId, now, allowed),
                      error, State())
    {
      hide Post, FreshId, ConfirmPayment, Reachable;
      ghost var before := State();
      ReachableStep(before, OpRecordPayment(p, payment, amount, user, false, creditId, now, allowed));
      if !PaymentAmount(amount) { return Some(PaymentAmountInvalid); }
      if p !in partners { return Some(NotFound); }
      if !HasTraded(partners[p]) { return Some(PartnershipNotActive); }
      if !allowed { return Some(Refused); }
      if payment in payments { return Some(IntegrityError); }
      var savedPayments, savedBalances := payments, balances;
      LockRow(p);
      payments := payments[payment := Payment(p, amount, PaymentPending, user, 1)];
      error := None;
      if confirm {
        error := DoConfirmPayment(payment, 1, creditId, now, true);
        if error.Some? {
          payments, balances := savedPayments, savedBalances;
        }
      }
    }

    method DoFinishPayment(payment: int, expected: nat, target: PaymentStatus,
                           user: int, hasReason: bool, allowed: bool)
      returns (error: Option<Error>)
      requires Valid() && target in {PaymentRejected, PaymentCancelled}
      modifies this
      ensures Valid()
      ensures Matches(old(State()), FinishPayment(old(State()), payment, expected, target, user, hasReason, allowed),
                      error, State())
    {
      hide Reachable;
      ghost var before := State();
      if target == PaymentRejected {
        ReachableStep(before, OpRejectPayment(payment, expected, user, hasReason, allowed));
      } else {
        ReachableStep(before, OpCancelPayment(payment, expected, user, allowed));
        CancelNeedsNoReason(before, payment, expected, user, hasReason, allowed);
      }
      if payment !in payments { return Some(NotFound); }
      var pay := payments[payment];
      if pay.partnership !in partners { return Some(NotFound); }
      if !allowed || (target == PaymentCancelled && pay.recordedBy != user) { return Some(Refused); }
      if pay.version != expected { return Some(VersionConflict); }
      if pay.status != PaymentPending { return Some(PaymentNotPending); }
      if target == PaymentRejected && !hasReason { return Some(Refused); }
      LockRow(pay.partnership);
      payments := payments[payment := pay.(status := target, version := pay.version + 1)];
      error := None;
    }

    method DoCreateAdjustment(p: int, adjustment: int, kind: AdjustmentKind, amount: int, user: int, owner: bool,
                              itemId: int, now: int, allowed: bool)
      returns (error: Option<Error>)
      requires Valid()
      modifies this
      ensures Valid()
      ensures Matches(old(State()),
                      CreateAdjustment(old(State()), p, adjustment, kind, amount, user, owner, itemId, now, allowed),
                      error, State())
    {
      hide Post, FreshId, ApproveAdjustment, Reachable;
      ghost var before := State();
      ReachableStep(before, OpCreateAdjustment(p, adjustment, kind, amount, user, false, itemId, now, allowed));
      if !allowed { return Some(Refused); }
      if !FinancialAmount(amount) { return Some(AmountInvalid); }
      if p !in partners { return Some(NotFound); }
      if adjustment in adjustments { return Some(IntegrityError); }
      var savedAdjustments, savedBalances := adjustments, balances;
      LockRow(p);
      adjustments := adjustments[adjustment := Adjustment(p, kind, amount, PendingApproval, user, false, 1)];
      error := None;
      if owner {
        error := DoApproveAdjustment(adjustment, 1, user, itemId, now, true);
        if error.Some? {
          adjustments, balances := savedAdjustments, savedBalances;
        }
      }
    }

    method DoRejectAdjustment(adjustment: int, expected: nat, allowed: bool) returns (error: Option<Error>)
      requires Valid()
      modifies this
      ensures Valid()
      ensures Matches(old(State()), RejectAdjustment(old(State()), adjustment, expected, allowed), error, State())
    {
      hide Reachable;
      ReachableStep(State(), OpRejectAdjustment(adjustment, expected, allowed));
      if !allowed { return Some(Refused); }
      if adjustment !in adjustments { return Some(NotFound); }
      var a := adjustments[adjustment];
      if a.partnership !in partners { return Some(NotFound); }
      if a.version != expected { return Some(VersionConflict); }
      if a.status != PendingApproval { return Some(InvalidTransition); }
      LockRow(a.partnership);
      adjustments := adjustments[adjustment := a.(status := NotApproved, version := a.version + 1)];
      error := None;
    }

    method DoApproveAdjustment(adjustment: int, expected: nat, user: int, itemId: int, now: int, allowed: bool)
      returns (error: Option<Error>)
      requires Valid()
      modifies this
      ensures Valid()
      ensures Matches(old(State()), ApproveAdjustment(old(State()), adjustment, expected, user, itemId, now, allowed),
                      error, State())
    {
      hide Post, Reachable, FreshId, Unapplied;
      if !allowed { return Some(Refused); }
      if adjustment !in adjustments { return Some(NotFound); }
      var a := adjustments[adjustment];
      if a.partnership !in partners { return Some(NotFound); }
      if a.version != expected { return Some(VersionConflict); }
      if a.status != PendingApproval { return Some(InvalidTransition); }
      if a.kind == RefundAdjustment && a.amount > Unapplied(Rows(), a.partnership) { return Some(RefundExceedsCredit); }
      if !FreshId(Rows(), ItemOf(a.kind, now), itemId) { return Some(IntegrityError); }
      ghost var next, posted := ApproveAccepted(State(), adjustment, expected, user, itemId, now);
      PostApproved(adjustment, user, itemId, now, posted);
      error := None;
    }

    /** The writes of an accepted approval. */
    method PostApproved(adjustment: int, user: int, itemId: int, now: int, ghost posted: Books)
      requires Valid() && adjustment in adjustments && adjustments[adjustment].amount > 0
      requires FreshId(Rows(), ItemOf(adjustments[adjustment].kind, now), itemId)
      requires var a := adjustments[adjustment];
        posted == Post(Rows(), a.partnership, ItemOf(a.kind, now), itemId, adjustment, a.amount, now)
      modifies this
      ensures var s := old(State());
        var a := s.adjustments[adjustment];
        State() == s.(adjustments := s.adjustments[adjustment :=
                        a.(status := Approved, selfApproved := a.createdBy == user, version := a.version + 1)],
                      books := posted)
    {
      hide Post, Reachable;
      ghost var before := State();
      var a := adjustments[adjustment];
      adjustments := adjustments[adjustment :=
        a.(status := Approved, selfApproved := a.createdBy == user, version := a.version + 1)];
      PostItem(before, posted, a.partnership, ItemOf(a.kind, now), itemId, adjustment, a.amount, now);
    }

    method DoCreateCreditNote(p: int, amount: int, source: int, noteId: int, creditId: int, now: int)
      returns (error: Option<Error>)
      requires Valid()
      modifies this
      ensures Valid()
      ensures Matches(old(State()), CreateCreditNote(old(State()), p, amount, source, noteId, creditId, now),
                      error, State())
    {
      if !FinancialAmount(amount) { return Some(AmountInvalid); }
      if p !in partners { return Some(NotFound); }
      if source in notes {
        if notes[source].partnership != p || notes[source].amount != amount { return Some(SourceMismatch); }
        ReachableStep(State(), OpCreateCreditNote(p, amount, source, noteId, creditId, now));
        LockRow(p);
        return None;
      }
      if NoteTaken(notes, noteId) || !FreshId(Rows(), CreditItem(CreditNoteCredit), creditId) {
        return Some(IntegrityError);
      }
      NoteAccepted(State(), p, amount, source, noteId, creditId, now);
      PostNote(p, amount, source, noteId, creditId, now);
      error := None;
    }

    method PostNote(p: int, amount: int, source: int, noteId: int, creditId: int, now: int)
      requires Valid() && amount > 0 && FreshId(Rows(), CreditItem(CreditNoteCredit), creditId)
      modifies this
      ensures var s := old(State());
        State()
        == s.(notes := s.notes[source := CreditNote(noteId, p, amount)],
              books := Post(s.books, p, CreditItem(CreditNoteCredit), creditId, noteId, amount, now))
    {
      hide Post, Reachable;
      ghost var before := State();
      notes := notes[source := CreditNote(noteId, p, amount)];
      ghost var posted := Post(before.books, p, CreditItem(CreditNoteCredit), creditId, noteId, amount, now);
      PostCredit(before, posted, p, CreditNoteCredit, creditId, noteId, amount, now);
    }
  }

  lemma CancelNeedsNoReason(s: Store, payment: int, expected: nat, user: int, hasReason: bool, allowed: bool)
    ensures FinishPayment(s, payment, expected, PaymentCancelled, user, hasReason, allowed)
         == FinishPayment(s, payment, expected, PaymentCancelled, user, false, allowed)
  {
  }

  lemma AllocatingFrom(b: Books, p: int, now: int)
    requires AllocationInv(b)
    ensures Fifo.ValidCharges(OpenChargeInputs(b, p)) && Fifo.ValidCredits(OpenCreditInputs(b, p))
    ensures Allocate(b, p, now) == ApplyLines(b, p, Fifo.Plan(OpenChargeInputs(b, p), OpenCreditInputs(b, p)), now)
  {
    InputsAreValid(b, p);
  }

  lemma NoLines(b: Books, p: int, lines: seq<Fifo.Line>, now: int)
    ensures ApplyLines(b, p, lines[..0], now) == b
  {
  }

  lemma NextLine(b: Books, p: int, lines: seq<Fifo.Line>, k: nat, now: int)
    requires k < |lines|
    ensures ApplyLines(b, p, lines[..k + 1], now) == ApplyLine(ApplyLines(b, p, lines[..k], now), p, lines[k], now)
  {
    hide ApplyLine;
    assert lines[..k + 1][..k] == lines[..k];
  }
}
