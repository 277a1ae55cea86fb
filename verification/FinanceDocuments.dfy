/**
 The money follows the documents: after any run the ledger, the charges and the credits hold exactly one
 row for every delivered order, confirmed payment, approved adjustment and credit note, and the balance is
 what the documents add up to.
 */
module FinanceDocuments {
  import opened Seqs
  import opened Books
  import opened BooksProofs
  import opened Posting
  import opened Finance
  import opened FinanceProofs

  /** What a document posts: the type and the source are the key under which the tables keep it. */
  datatype Fact = Fact(entryType: EntryType, sourceId: int, partnership: int, amount: int)

  predicate SameKey(x: Fact, y: Fact) { x.entryType == y.entryType && x.sourceId == y.sourceId }

  function Value(x: Fact): int { if IsDebit(x.entryType) then x.amount else -x.amount }

  function AdjustmentType(kind: AdjustmentKind): EntryType {
    match kind
    case DebitAdjustment => DebitEntry
    case CreditAdjustment => CreditEntry
    case RefundAdjustment => RefundEntry
  }

  // ---------------------------------------------------------------- documents

  /** Some document that has taken effect posts `x`. */
  ghost predicate Documented(s: Store, x: Fact) {
    match x.entryType
    case ChargeEntry =>
      x.sourceId in s.orders && IsDelivered(s.orders[x.sourceId]) && s.orders[x.sourceId].partnership == x.partnership
      && s.orders[x.sourceId].total == Some(x.amount) && x.amount > 0
    case PaymentEntry =>
      x.sourceId in s.payments && s.payments[x.sourceId].status == PaymentConfirmed
      && s.payments[x.sourceId].partnership == x.partnership && s.payments[x.sourceId].amount == x.amount
    case CreditNoteEntry =>
      exists k :: k in s.notes && s.notes[k] == CreditNote(x.sourceId, x.partnership, x.amount)
    case _ =>
      x.sourceId in s.adjustments && s.adjustments[x.sourceId].status == Approved
      && AdjustmentType(s.adjustments[x.sourceId].kind) == x.entryType
      && s.adjustments[x.sourceId].partnership == x.partnership && s.adjustments[x.sourceId].amount == x.amount
  }

  function OrderOwes(p: int): Order -> int {
    (o: Order) => if o.partnership == p && IsDelivered(o) && o.total.Some? then o.total.value else 0
  }

  function PaymentPays(p: int): Payment -> int {
    (x: Payment) => if x.partnership == p && x.status == PaymentConfirmed then x.amount else 0
  }

  function AdjustmentOwes(p: int): Adjustment -> int {
    (a: Adjustment) =>
      if a.partnership != p || a.status != Approved then 0
      else if a.kind == CreditAdjustment then -a.amount else a.amount
  }

  function NoteGives(p: int): CreditNote -> int { (n: CreditNote) => if n.partnership == p then n.amount else 0 }

  ghost function MapSum<T(!new)>(m: map<int, T>, f: T -> int): int
    decreases |m|
  {
    if m == map[] then 0
    else
      Nonempty(m);
      var k :| k in m;
      assert (m - {k}).Keys == m.Keys - {k};
      f(m[k]) + MapSum(m - {k}, f)
  }

  lemma Nonempty<T>(m: map<int, T>)
    requires m != map[]
    ensures exists k :: k in m
  {
    assert (forall k :: k !in m) ==> m == map[];
  }

  /** Delivered orders, debits and refunds, less payments, credits and credit notes. */
  ghost function DocumentTotal(s: Store, p: int): int {
    MapSum(s.orders, OrderOwes(p)) + MapSum(s.adjustments, AdjustmentOwes(p))
    - MapSum(s.payments, PaymentPays(p)) - MapSum(s.notes, NoteGives(p))
  }

  lemma {:induction false} MapSumRemove<T(!new)>(m: map<int, T>, k: int, f: T -> int)
    requires k in m
    ensures MapSum(m, f) == f(m[k]) + MapSum(m - {k}, f)
    decreases |m|
  {
    var x :| x in m && MapSum(m, f) == f(m[x]) + MapSum(m - {x}, f);
    if x != k {
      assert (m - {x}).Keys == m.Keys - {x} && (m - {k}).Keys == m.Keys - {k};
      assert |m - {x}| < |m| && |m - {k}| < |m|;
      MapSumRemove(m - {x}, k, f);
      MapSumRemove(m - {k}, x, f);
      assert m - {x} - {k} == m - {k} - {x};
    }
  }

  lemma MapSumUpdate<T(!new)>(m: map<int, T>, k: int, v: T, f: T -> int)
    ensures MapSum(m[k := v], f) == MapSum(m, f) + f(v) - if k in m then f(m[k]) else 0
  {
    hide MapSum;
    MapSumRemove(m[k := v], k, f);
    assert m[k := v] - {k} == m - {k};
    if k in m { MapSumRemove(m, k, f); } else { assert m - {k} == m; }
  }

  // ---------------------------------------------------------------- one document at a time

  ghost predicate SameDocuments(s: Store, s': Store) {
    && (forall x :: Documented(s', x) <==> Documented(s, x))
    && (forall q :: DocumentTotal(s', q) == DocumentTotal(s, q))
  }

  /** One document more, under a key that no document had. */
  ghost predicate OneMore(s: Store, s': Store, y: Fact) {
    && (forall x :: Documented(s', x) <==> Documented(s, x) || x == y)
    && (forall x :: Documented(s, x) ==> !SameKey(x, y))
    && (forall q :: DocumentTotal(s', q) == DocumentTotal(s, q) + if q == y.partnership then Value(y) else 0)
  }

  lemma PaymentTotals(s: Store, s': Store, id: int, pay: Payment, q: int)
    requires s'.orders == s.orders && s'.adjustments == s.adjustments && s'.notes == s.notes
    requires s'.payments == s.payments[id := pay] && (id in s.payments ==> s.payments[id].status != PaymentConfirmed)
    ensures DocumentTotal(s', q) == DocumentTotal(s, q) - PaymentPays(q)(pay)
  {
    hide MapSum;
    MapSumUpdate(s.payments, id, pay, PaymentPays(q));
  }

  lemma PaymentFact(s: Store, s': Store, id: int, v: Payment, x: Fact)
    requires s'.orders == s.orders && s'.adjustments == s.adjustments && s'.notes == s.notes
    requires s'.payments == s.payments[id := v] && (id in s.payments ==> s.payments[id].status != PaymentConfirmed)
    ensures Documented(s', x)
       <==> Documented(s, x) || (v.status == PaymentConfirmed && x == Fact(PaymentEntry, id, v.partnership, v.amount))
    ensures Documented(s, x) && v.status == PaymentConfirmed ==>
        !SameKey(x, Fact(PaymentEntry, id, v.partnership, v.amount))
  {
  }

  lemma PaymentStored(s: Store, s': Store, id: int, pay: Payment)
    requires s'.orders == s.orders && s'.adjustments == s.adjustments && s'.notes == s.notes
    requires s'.payments == s.payments[id := pay] && (id in s.payments ==> s.payments[id].status != PaymentConfirmed)
    ensures if pay.status == PaymentConfirmed then OneMore(s, s', Fact(PaymentEntry, id, pay.partnership, pay.amount))
            else SameDocuments(s, s')
  {
    hide DocumentTotal, Documented, SameKey;
    forall q ensures DocumentTotal(s', q) == DocumentTotal(s, q) - PaymentPays(q)(pay) {
      PaymentTotals(s, s', id, pay, q);
    }
    var y := Fact(PaymentEntry, id, pay.partnership, pay.amount);
    forall x
      ensures Documented(s', x) <==> Documented(s, x) || (pay.status == PaymentConfirmed && x == y)
      ensures Documented(s, x) && pay.status == PaymentConfirmed ==> !SameKey(x, y)
    {
      PaymentFact(s, s', id, pay, x);
    }
  }

  lemma AdjustmentTotals(s: Store, s': Store, id: int, a: Adjustment, q: int)
    requires s'.orders == s.orders && s'.payments == s.payments && s'.notes == s.notes
    requires s'.adjustments == s.adjustments[id := a] && (id in s.adjustments ==> s.adjustments[id].status != Approved)
    ensures DocumentTotal(s', q) == DocumentTotal(s, q) + AdjustmentOwes(q)(a)
  {
    hide MapSum;
    MapSumUpdate(s.adjustments, id, a, AdjustmentOwes(q));
  }

  lemma AdjustmentFact(s: Store, s': Store, id: int, v: Adjustment, x: Fact)
    requires s'.orders == s.orders && s'.payments == s.payments && s'.notes == s.notes
    requires s'.adjustments == s.adjustments[id := v] && (id in s.adjustments ==> s.adjustments[id].status != Approved)
    ensures Documented(s', x)
       <==> Documented(s, x) || (v.status == Approved && x == Fact(AdjustmentType(v.kind), id, v.partnership, v.amount))
    ensures Documented(s, x) && v.status == Approved ==>
        !SameKey(x, Fact(AdjustmentType(v.kind), id, v.partnership, v.amount))
  {
  }

  lemma AdjustmentStored(s: Store, s': Store, id: int, a: Adjustment)
    requires s'.orders == s.orders && s'.payments == s.payments && s'.notes == s.notes
    requires s'.adjustments == s.adjustments[id := a] && (id in s.adjustments ==> s.adjustments[id].status != Approved)
    ensures if a.status == Approved then OneMore(s, s', Fact(AdjustmentType(a.kind), id, a.partnership, a.amount))
            else SameDocuments(s, s')
  {
    hide DocumentTotal, Documented, SameKey;
    forall q ensures DocumentTotal(s', q) == DocumentTotal(s, q) + AdjustmentOwes(q)(a) {
      AdjustmentTotals(s, s', id, a, q);
    }
    var y := Fact(AdjustmentType(a.kind), id, a.partnership, a.amount);
    forall x
      ensures Documented(s', x) <==> Documented(s, x) || (a.status == Approved && x == y)
      ensures Documented(s, x) && a.status == Approved ==> !SameKey(x, y)
    {
      AdjustmentFact(s, s', id, a, x);
    }
  }

  lemma NoteTotals(s: Store, s': Store, source: int, n: CreditNote, q: int)
    requires s'.orders == s.orders && s'.payments == s.payments && s'.adjustments == s.adjustments
    requires s'.notes == s.notes[source := n] && source !in s.notes
    ensures DocumentTotal(s', q) == DocumentTotal(s, q) - NoteGives(q)(n)
  {
    hide MapSum;
    MapSumUpdate(s.notes, source, n, NoteGives(q));
  }

  lemma NoteStored(s: Store, s': Store, source: int, n: CreditNote)
    requires s'.orders == s.orders && s'.payments == s.payments && s'.adjustments == s.adjustments
    requires s'.notes == s.notes[source := n] && source !in s.notes && !NoteTaken(s.notes, n.id)
    ensures OneMore(s, s', Fact(CreditNoteEntry, n.id, n.partnership, n.amount))
  {
    hide DocumentTotal;
    forall q ensures DocumentTotal(s', q) == DocumentTotal(s, q) - NoteGives(q)(n) { NoteTotals(s, s', source, n, q); }
    assert s'.notes[source] == n;
    forall k | k in s.notes ensures s'.notes[k] == s.notes[k] { }
  }

  lemma OrderTotals(s: Store, s': Store, id: int, o: Order, q: int)
    requires s'.payments == s.payments && s'.adjustments == s.adjustments && s'.notes == s.notes
    requires s'.orders == s.orders[id := o]
    ensures DocumentTotal(s', q)
         == DocumentTotal(s, q) + OrderOwes(q)(o) - if id in s.orders then OrderOwes(q)(s.orders[id]) else 0
  {
    hide MapSum;
    MapSumUpdate(s.orders, id, o, OrderOwes(q));
  }

  predicate Delivers(s: Store, id: int, o: Order) {
    !(id in s.orders && IsDelivered(s.orders[id])) && IsDelivered(o) && o.total.Some? && o.total.value > 0
  }

  /** A delivery is final: only its status may still change, and only within the delivered ones. */
  predicate MayStore(s: Store, id: int, o: Order) {
    if id in s.orders && IsDelivered(s.orders[id]) then IsDelivered(o) && o == s.orders[id].(status := o.status)
    else IsDelivered(o) ==> o.total.Some? && o.total.value >= 0
  }

  lemma OrderFact(s: Store, s': Store, id: int, o: Order, x: Fact)
    requires s'.payments == s.payments && s'.adjustments == s.adjustments && s'.notes == s.notes
    requires s'.orders == s.orders[id := o] && MayStore(s, id, o)
    ensures Delivers(s, id, o) ==>
              var y := Fact(ChargeEntry, id, o.partnership, o.total.value);
              (Documented(s', x) <==> Documented(s, x) || x == y) && (Documented(s, x) ==> !SameKey(x, y))
    ensures !Delivers(s, id, o) ==> (Documented(s', x) <==> Documented(s, x))
  {
  }

  /** An order that is delivered now, one that is not yet, and one whose delivery is only followed up. */
  lemma OrderStored(s: Store, s': Store, id: int, o: Order)
    requires s'.payments == s.payments && s'.adjustments == s.adjustments && s'.notes == s.notes
    requires s'.orders == s.orders[id := o] && MayStore(s, id, o)
    ensures if Delivers(s, id, o) then OneMore(s, s', Fact(ChargeEntry, id, o.partnership, o.total.value))
            else SameDocuments(s, s')
  {
    hide DocumentTotal, Documented, SameKey;
    forall q
      ensures DocumentTotal(s', q)
           == DocumentTotal(s, q) + OrderOwes(q)(o) - if id in s.orders then OrderOwes(q)(s.orders[id]) else 0
    {
      OrderTotals(s, s', id, o, q);
    }
    forall x
      ensures !Delivers(s, id, o) ==> (Documented(s', x) <==> Documented(s, x))
      ensures Delivers(s, id, o) ==>
                var y := Fact(ChargeEntry, id, o.partnership, o.total.value);
                (Documented(s', x) <==> Documented(s, x) || x == y) && (Documented(s, x) ==> !SameKey(x, y))
    {
      OrderFact(s, s', id, o, x);
    }
  }

  // ---------------------------------------------------------------- the tables

  function EntryFact(e: Entry): Fact { Fact(e.entryType, e.sourceId, e.partnership, e.amount) }

  function ChargeFact(c: Charge): Fact { Fact(EntryTypeOf(ChargeItem(c.kind, 0)), c.sourceId, c.partnership, c.amount) }

  function CreditFact(c: Credit): Fact { Fact(EntryTypeOf(CreditItem(c.kind)), c.sourceId, c.partnership, c.amount) }

  function Entries(b: Books): seq<Fact> { seq(|b.ledger|, i requires 0 <= i < |b.ledger| => EntryFact(b.ledger[i])) }

  function Charges(b: Books): seq<Fact> {
    seq(|b.charges|, i requires 0 <= i < |b.charges| => ChargeFact(b.charges[i]))
  }

  function Credits(b: Books): seq<Fact> {
    seq(|b.credits|, i requires 0 <= i < |b.credits| => CreditFact(b.credits[i]))
  }

  /** Which facts a table keeps: charges are debits, credits are not, the ledger has both. */
  datatype Side = Debits | Others | All

  predicate On(side: Side, x: Fact) {
    match side
    case Debits => IsDebit(x.entryType)
    case Others => !IsDebit(x.entryType)
    case All => true
  }

  /** The rows are the documents of their side, each once under its own key. */
  ghost predicate Mirrors(s: Store, rows: seq<Fact>, side: Side) {
    && (forall k :: 0 <= k < |rows| ==> Documented(s, rows[k]) && On(side, rows[k]))
    && (forall k, l :: 0 <= k < l < |rows| ==> !SameKey(rows[k], rows[l]))
    && (forall x :: Documented(s, x) && On(side, x) ==> x in rows)
  }

  lemma MirrorsSame(s: Store, s': Store, rows: seq<Fact>, side: Side)
    requires Mirrors(s, rows, side) && SameDocuments(s, s')
    ensures Mirrors(s', rows, side)
  {
    hide Documented, DocumentTotal, SameKey, On;
  }

  lemma MirrorsMore(s: Store, s': Store, rows: seq<Fact>, side: Side, y: Fact)
    requires Mirrors(s, rows, side) && OneMore(s, s', y)
    ensures Mirrors(s', if On(side, y) then rows + [y] else rows, side)
  {
    hide Documented, DocumentTotal, SameKey, On;
  }

  lemma PostRows(b: Books, p: int, item: Item, id: int, sourceId: int, amount: int, now: int)
    ensures var b' := Post(b, p, item, id, sourceId, amount, now);
            var y := Fact(EntryTypeOf(item), sourceId, p, amount);
            && Entries(b') == Entries(b) + [y]
            && Charges(b') == (if item.ChargeItem? then Charges(b) + [y] else Charges(b))
            && Credits(b') == (if item.CreditItem? then Credits(b) + [y] else Credits(b))
            && (item.ChargeItem? <==> IsDebit(y.entryType))
  {
    hide Post;
    PostShape(b, p, item, id, sourceId, amount, now);
    var b' := Post(b, p, item, id, sourceId, amount, now);
    forall i | 0 <= i < |b.charges| ensures ChargeFact(b'.charges[i]) == ChargeFact(b.charges[i]) {
      assert SameCharge(b.charges[i], b'.charges[i]);
    }
    forall i | 0 <= i < |b.credits| ensures CreditFact(b'.credits[i]) == CreditFact(b.credits[i]) {
      assert SameCredit(b.credits[i], b'.credits[i]);
    }
  }

  ghost predicate DocumentsInv(s: Store) {
    && Mirrors(s, Entries(s.books), All) && Mirrors(s, Charges(s.books), Debits) && Mirrors(s, Credits(s.books), Others)
    && forall p :: BalanceOf(s.books, p) == DocumentTotal(s, p)
  }

  /** A step that books exactly what its documents change. */
  ghost predicate Booked(s: Store, s': Store, c: Change) {
    && Changes(s.books, s'.books, c)
    && match c
       case Posted(p, item, _, sourceId, amount, _) => OneMore(s, s', Fact(EntryTypeOf(item), sourceId, p, amount))
       case _ => SameDocuments(s, s')
  }

  lemma BookedKeeps(s: Store, s': Store, c: Change)
    requires StoreInv(s) && DocumentsInv(s) && Booked(s, s', c)
    ensures DocumentsInv(s')
  {
    hide Mirrors, Documented, DocumentTotal, Post, SourcesInv, FreshId;
    match c
    case Posted(p, item, id, sourceId, amount, now) =>
      var y := Fact(EntryTypeOf(item), sourceId, p, amount);
      PostRows(s.books, p, item, id, sourceId, amount, now);
      MirrorsMore(s, s', Entries(s.books), All, y);
      MirrorsMore(s, s', Charges(s.books), Debits, y);
      MirrorsMore(s, s', Credits(s.books), Others, y);
      forall q ensures BalanceOf(s'.books, q) == DocumentTotal(s', q) {
        assert MoneyOk(s.books, q);
        PostMoney(s.books, p, item, id, sourceId, amount, now, q);
      }
    case _ =>
      MirrorsSame(s, s', Entries(s.books), All);
      MirrorsSame(s, s', Charges(s.books), Debits);
      MirrorsSame(s, s', Credits(s.books), Others);
      LockedRows(s.books, s'.books, c);
  }

  lemma LockedRows(b: Books, b': Books, c: Change)
    requires Changes(b, b', c) && !c.Posted?
    ensures Entries(b') == Entries(b) && Charges(b') == Charges(b) && Credits(b') == Credits(b)
    ensures forall p :: BalanceOf(b', p) == BalanceOf(b, p)
  {
  }

  // ---------------------------------------------------------------- every operation

  lemma DeliverBooks(s: Store, order: int, id: int, now: int) returns (c: Change)
    requires SourcesInv(s) && DeliverOrder(s, order, id, now).Ok?
    ensures Booked(s, DeliverOrder(s, order, id, now).value, c)
  {
    hide Post, FreshId, Documented, DocumentTotal, PaymentsOk, OrdersOk, PartnersOk;
    var o := s.orders[order].(status := Delivered, deliveredAt := now);
    var s' := DeliverOrder(s, order, id, now).value;
    assert !HasOrderCharge(s.books, order);
    if o.total.value == 0 {
      c := Locked(o.partnership);
    } else {
      c := Posted(o.partnership, OrderItem(o), id, order, o.total.value, now);
    }
    OrderStored(s, s', order, o);
  }

  lemma RepeatBooks(s: Store, order: int, id: int, now: int) returns (c: Change)
    requires SourcesInv(s) && order in s.orders && CreateOrderCharge(s, order, id, now).Ok?
    ensures Booked(s, CreateOrderCharge(s, order, id, now).value, c)
  {
    hide Post, FreshId, Documented, DocumentTotal, PaymentsOk, OrderChargesOk, PartnersOk;
    c := Locked(s.orders[order].partnership);
    assert s.orders[order].total.value > 0 ==> HasChargeFor(s.books, s.orders[order].partnership, order);
    Untouched(s, CreateOrderCharge(s, order, id, now).value);
  }

  lemma Untouched(s: Store, s': Store)
    requires s'.orders == s.orders && s'.payments == s.payments
    requires s'.adjustments == s.adjustments && s'.notes == s.notes
    ensures SameDocuments(s, s')
  {
  }

  lemma PaymentBooks(s: Store, op: Op) returns (c: Change)
    requires SourcesInv(s) && Try(s, op).Ok?
    requires op.OpRecordPayment? || op.OpConfirmPayment? || op.OpRejectPayment? || op.OpCancelPayment?
    ensures Booked(s, Step(s, op), c)
  {
    hide Post, FreshId, Documented, DocumentTotal, OneMore, SameDocuments, OrdersOk, OrderChargesOk, PartnersOk;
    var id := op.payment;
    var s' := Step(s, op);
    match op
    case OpRecordPayment(p, _, amount, user, confirm, creditId, now, allowed) =>
      c := RecordChange(s, p, id, amount, user, confirm, creditId, now, allowed);
      PaymentStored(s, s', id, s'.payments[id]);
    case OpConfirmPayment(_, expected, creditId, now, allowed) =>
      c := ConfirmChange(s, id, expected, creditId, now, allowed);
      PaymentStored(s, s', id, s'.payments[id]);
    case OpRejectPayment(_, _, _, _, _) =>
      c := Locked(s.payments[id].partnership);
      PaymentStored(s, s', id, s'.payments[id]);
    case OpCancelPayment(_, _, _, _) =>
      c := Locked(s.payments[id].partnership);
      PaymentStored(s, s', id, s'.payments[id]);
  }

  lemma AdjustmentBooks(s: Store, op: Op) returns (c: Change)
    requires SourcesInv(s) && Try(s, op).Ok?
    requires op.OpCreateAdjustment? || op.OpApproveAdjustment? || op.OpRejectAdjustment?
    ensures Booked(s, Step(s, op), c)
  {
    hide Post, FreshId, Documented, DocumentTotal, OneMore, SameDocuments, OrdersOk, OrderChargesOk, PartnersOk;
    var id := op.adjustment;
    var s' := Step(s, op);
    match op
    case OpCreateAdjustment(p, _, kind, amount, user, owner, itemId, now, allowed) =>
      c := CreateChange(s, p, id, kind, amount, user, owner, itemId, now, allowed);
      AdjustmentStored(s, s', id, s'.adjustments[id]);
    case OpApproveAdjustment(_, expected, user, itemId, now, allowed) =>
      c := ApproveChange(s, id, expected, user, itemId, now, allowed);
      AdjustmentStored(s, s', id, s'.adjustments[id]);
    case OpRejectAdjustment(_, _, _) =>
      c := Locked(s.adjustments[id].partnership);
      AdjustmentStored(s, s', id, s'.adjustments[id]);
  }

  lemma NoteBooks(s: Store, p: int, amount: int, source: int, noteId: int, id: int, now: int) returns (c: Change)
    requires CreateCreditNote(s, p, amount, source, noteId, id, now).Ok?
    ensures Booked(s, CreateCreditNote(s, p, amount, source, noteId, id, now).value, c)
  {
    hide Post, FreshId, Documented, DocumentTotal, OneMore, SameDocuments;
    var s' := CreateCreditNote(s, p, amount, source, noteId, id, now).value;
    if source in s.notes {
      c := Locked(p);
      Untouched(s, s');
    } else {
      c := Posted(p, CreditItem(CreditNoteCredit), id, noteId, amount, now);
      NoteStored(s, s', source, CreditNote(noteId, p, amount));
    }
  }

  lemma OrderEditBooks(s: Store, op: Op) returns (c: Change)
    requires SourcesInv(s) && Try(s, op).Ok? && (op.OpEditOrder? || op.OpCloseOrder?)
    ensures Booked(s, Step(s, op), c)
  {
    hide Post, Documented, DocumentTotal;
    c := Kept;
    OrderStored(s, Step(s, op), op.order, Step(s, op).orders[op.order]);
  }

  lemma StepBooks(s: Store, op: Op) returns (c: Change)
    requires SourcesInv(s) && Try(s, op).Ok?
    ensures Booked(s, Step(s, op), c)
  {
    hide Post, SourcesInv, Documented, DocumentTotal, OneMore, SameDocuments;
    match op
    case OpDeliverOrder(order, id, now) => c := DeliverBooks(s, order, id, now);
    case OpRepeatOrderCharge(order, id, now) => c := RepeatBooks(s, order, id, now);
    case OpCreateCreditNote(p, amount, source, noteId, id, now) =>
      c := NoteBooks(s, p, amount, source, noteId, id, now);
    case OpSetPartner(p, target) =>
      c := if target == Active then Locked(p) else Kept;
      Untouched(s, Step(s, op));
    case OpReadBalance(p) =>
      c := Locked(p);
      Untouched(s, Step(s, op));
    case OpEditOrder(_, _) => c := OrderEditBooks(s, op);
    case OpCloseOrder(_, _) => c := OrderEditBooks(s, op);
    case OpCreateAdjustment(_, _, _, _, _, _, _, _, _) => c := AdjustmentBooks(s, op);
    case OpApproveAdjustment(_, _, _, _, _, _) => c := AdjustmentBooks(s, op);
    case OpRejectAdjustment(_, _, _) => c := AdjustmentBooks(s, op);
    case _ => c := PaymentBooks(s, op);
  }

  lemma {:induction false} RunBooks(ops: seq<Op>)
    ensures DocumentsInv(Reached(ops))
  {
    hide Step;
    if ops == [] {
      NoDocuments();
    } else {
      hide DocumentsInv, StoreInv, Booked;
      var s := Reached(ops[..|ops| - 1]);
      RunBooks(ops[..|ops| - 1]);
      ReachedIsGood(ops[..|ops| - 1]);
      StepKeepsDocuments(s, ops[|ops| - 1]);
    }
  }

  lemma StepKeepsDocuments(s: Store, op: Op)
    requires StoreInv(s) && DocumentsInv(s)
    ensures DocumentsInv(Step(s, op))
  {
    hide DocumentsInv, Booked, SourcesInv, BooksInv;
    if Try(s, op).Ok? {
      var c := StepBooks(s, op);
      BookedKeeps(s, Step(s, op), c);
    }
  }

  lemma NoDocuments()
    ensures DocumentsInv(Start())
  {
  }

  // ---------------------------------------------------------------- what follows

  /**
   After any run every document that has taken effect is posted exactly once: one ledger entry, one charge
   or one credit under its key, for its amount and its partnership, and no row stands for anything else.
   */
  lemma PostedExactlyOnce(ops: seq<Op>, x: Fact)
    ensures var s := Reached(ops);
            && (Documented(s, x) <==> x in Entries(s.books))
            && (Documented(s, x) && IsDebit(x.entryType) <==> x in Charges(s.books))
            && (Documented(s, x) && !IsDebit(x.entryType) <==> x in Credits(s.books))
            && KeysDiffer(Entries(s.books)) && KeysDiffer(Charges(s.books)) && KeysDiffer(Credits(s.books))
  {
    hide Reached, Documented, DocumentTotal;
    RunBooks(ops);
  }

  ghost predicate KeysDiffer(rows: seq<Fact>) { forall k, l :: 0 <= k < l < |rows| ==> !SameKey(rows[k], rows[l]) }

  /** And the balance is what the documents add up to. */
  lemma BalanceIsTheDocuments(ops: seq<Op>, p: int)
    ensures BalanceOf(Reached(ops).books, p) == DocumentTotal(Reached(ops), p)
  {
    hide Reached, DocumentTotal;
    RunBooks(ops);
  }
}
