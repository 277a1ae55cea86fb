/**
 The financial rows of every partnership and the three steps every posting is made of:
 insert the open item, append the ledger entry with the new projection, allocate.

 The tables are flat, as in the database: each row carries its partnership.
 */
module Books {
  import opened Seqs
  import opened Fifo

  datatype ChargeKind = OrderCharge | AdjustmentCharge | RefundCharge
  datatype CreditKind = PaymentCredit | CreditNoteCredit | AdjustmentCredit
  datatype ChargeStatus = Unpaid | PartiallyPaid | Paid

  datatype Charge = Charge(
    id: int, partnership: int, kind: ChargeKind, sourceId: int, amount: int, dueDate: int, createdAt: int,
    allocatedAmount: int, status: ChargeStatus, paidAt: Option<int>)
  {
    function Remaining(): int { amount - allocatedAmount }
  }

  datatype Credit = Credit(
    id: int, partnership: int, kind: CreditKind, sourceId: int, amount: int, createdAt: int, allocatedAmount: int)
  {
    function Remaining(): int { amount - allocatedAmount }
  }

  datatype Allocation = Allocation(partnership: int, chargeId: int, creditId: int, amount: int)

  datatype EntryType = ChargeEntry | PaymentEntry | CreditNoteEntry | DebitEntry | CreditEntry | RefundEntry

  datatype Entry = Entry(partnership: int, entryType: EntryType, sourceId: int, amount: int, balanceAfter: int)

  datatype Projection = Projection(balance: int, version: nat)

  datatype Books = Books(
    charges: seq<Charge>, credits: seq<Credit>, allocations: seq<Allocation>, ledger: seq<Entry>,
    balances: map<int, Projection>)

  // ---------------------------------------------------------------- sums per partnership

  predicate IsDebit(t: EntryType) { t in {ChargeEntry, DebitEntry, RefundEntry} }

  function ChargeLeft(p: int): Charge -> int { (c: Charge) => if c.partnership == p then c.Remaining() else 0 }

  function CreditLeft(p: int): Credit -> int { (c: Credit) => if c.partnership == p then c.Remaining() else 0 }

  function SignedAmount(e: Entry): int { if IsDebit(e.entryType) then e.amount else -e.amount }

  function Signed(p: int): Entry -> int { (e: Entry) => if e.partnership == p then SignedAmount(e) else 0 }

  function Outstanding(b: Books, p: int): int { Total(b.charges, ChargeLeft(p)) }

  function Unapplied(b: Books, p: int): int { Total(b.credits, CreditLeft(p)) }

  function LedgerTotal(ledger: seq<Entry>, p: int): int { Total(ledger, Signed(p)) }

  function BalanceOf(b: Books, p: int): int { if p in b.balances then b.balances[p].balance else 0 }

  function RowToCharge(p: int, id: int): Allocation -> int {
    (a: Allocation) => if a.partnership == p && a.chargeId == id then a.amount else 0
  }

  function RowFromCredit(p: int, id: int): Allocation -> int {
    (a: Allocation) => if a.partnership == p && a.creditId == id then a.amount else 0
  }

  function OneRow(p: int): Allocation -> int { (a: Allocation) => if a.partnership == p then 1 else 0 }
  function OneCharge(p: int): Charge -> int { (c: Charge) => if c.partnership == p then 1 else 0 }
  function OneCredit(p: int): Credit -> int { (c: Credit) => if c.partnership == p then 1 else 0 }
  function FullCharge(p: int): Charge -> int {
    (c: Charge) => if c.partnership == p && c.Remaining() == 0 then 1 else 0
  }
  function FullCredit(p: int): Credit -> int {
    (c: Credit) => if c.partnership == p && c.Remaining() == 0 then 1 else 0
  }

  function ChargeKey(): Charge -> int { (c: Charge) => c.id }
  function CreditKey(): Credit -> int { (c: Credit) => c.id }

  // ---------------------------------------------------------------- the steps

  /** The balance row every posting locks; the first lock creates it. */
  function Lock(b: Books, p: int): Books {
    if p in b.balances then b else b.(balances := b.balances[p := Projection(0, 1)])
  }

  function PostedBalance(balance: int, amount: int, entryType: EntryType): int {
    if IsDebit(entryType) then balance + amount else balance - amount
  }

  function PostLedger(b: Books, p: int, entryType: EntryType, sourceId: int, amount: int): Books
    requires p in b.balances
  {
    var after := PostedBalance(b.balances[p].balance, amount, entryType);
    b.(ledger := b.ledger + [Entry(p, entryType, sourceId, amount, after)],
       balances := b.balances[p := Projection(after, b.balances[p].version + 1)])
  }

  function StatusOf(amount: int, allocatedAmount: int): ChargeStatus {
    if allocatedAmount == amount then Paid else if allocatedAmount > 0 then PartiallyPaid else Unpaid
  }

  function Pay(c: Charge, amount: int, now: int): Charge {
    var total := c.allocatedAmount + amount;
    var status := StatusOf(c.amount, total);
    c.(allocatedAmount := total, status := status, paidAt := if status == Paid then Some(now) else c.paidAt)
  }

  function Use(c: Credit, amount: int): Credit { c.(allocatedAmount := c.allocatedAmount + amount) }

  function ChargeIndex(charges: seq<Charge>, id: int): (r: Option<nat>)
    ensures r.Some? ==> r.value < |charges| && charges[r.value].id == id
    ensures r.None? ==> forall i :: 0 <= i < |charges| ==> charges[i].id != id
  {
    if charges == [] then None
    else if charges[|charges| - 1].id == id then Some(|charges| - 1)
    else ChargeIndex(charges[..|charges| - 1], id)
  }

  function CreditIndex(credits: seq<Credit>, id: int): (r: Option<nat>)
    ensures r.Some? ==> r.value < |credits| && credits[r.value].id == id
    ensures r.None? ==> forall i :: 0 <= i < |credits| ==> credits[i].id != id
  {
    if credits == [] then None
    else if credits[|credits| - 1].id == id then Some(|credits| - 1)
    else CreditIndex(credits[..|credits| - 1], id)
  }

  /** One planned line written to the rows at `i` and `j`. */
  function ApplyAt(b: Books, p: int, i: nat, j: nat, amount: int, now: int): Books
    requires i < |b.charges| && j < |b.credits|
  {
    b.(charges := b.charges[i := Pay(b.charges[i], amount, now)],
       credits := b.credits[j := Use(b.credits[j], amount)],
       allocations := b.allocations + [Allocation(p, b.charges[i].id, b.credits[j].id, amount)])
  }

  function ApplyLine(b: Books, p: int, line: Line, now: int): Books {
    var i, j := ChargeIndex(b.charges, line.chargeId), CreditIndex(b.credits, line.creditId);
    if i.Some? && j.Some? then ApplyAt(b, p, i.value, j.value, line.amount, now) else b
  }

  function ApplyLines(b: Books, p: int, lines: seq<Line>, now: int): Books {
    if lines == [] then b
    else ApplyLine(ApplyLines(b, p, lines[..|lines| - 1], now), p, lines[|lines| - 1], now)
  }

  function IsOpenCharge(p: int): Charge -> bool {
    (c: Charge) => c.partnership == p && c.allocatedAmount < c.amount
  }

  function IsOpenCredit(p: int): Credit -> bool {
    (c: Credit) => c.partnership == p && c.allocatedAmount < c.amount
  }

  function ChargeInputOf(c: Charge): ChargeInput {
    ChargeInput(c.id, c.amount, c.allocatedAmount, c.dueDate, c.createdAt)
  }

  function CreditInputOf(c: Credit): CreditInput { CreditInput(c.id, c.amount, c.allocatedAmount, c.createdAt) }

  function OpenChargeInputs(b: Books, p: int): seq<ChargeInput> {
    var rows := Filter(b.charges, IsOpenCharge(p));
    seq(|rows|, i requires 0 <= i < |rows| => ChargeInputOf(rows[i]))
  }

  function OpenCreditInputs(b: Books, p: int): seq<CreditInput> {
    var rows := Filter(b.credits, IsOpenCredit(p));
    seq(|rows|, i requires 0 <= i < |rows| => CreditInputOf(rows[i]))
  }

  function PlanFor(b: Books, p: int): seq<Line> { Plan(OpenChargeInputs(b, p), OpenCreditInputs(b, p)) }

  function Allocate(b: Books, p: int, now: int): Books { ApplyLines(b, p, PlanFor(b, p), now) }

  datatype Item = ChargeItem(chargeKind: ChargeKind, dueDate: int) | CreditItem(creditKind: CreditKind)

  function EntryTypeOf(item: Item): EntryType {
    match item
    case ChargeItem(OrderCharge, _) => ChargeEntry
    case ChargeItem(AdjustmentCharge, _) => DebitEntry
    case ChargeItem(RefundCharge, _) => RefundEntry
    case CreditItem(PaymentCredit) => PaymentEntry
    case CreditItem(CreditNoteCredit) => CreditNoteEntry
    case CreditItem(AdjustmentCredit) => CreditEntry
  }

  function AddItem(b: Books, p: int, item: Item, id: int, sourceId: int, amount: int, now: int): Books {
    match item
    case ChargeItem(kind, due) =>
      b.(charges := b.charges + [Charge(id, p, kind, sourceId, amount, due, now, 0, Unpaid, None)])
    case CreditItem(kind) =>
      b.(credits := b.credits + [Credit(id, p, kind, sourceId, amount, now, 0)])
  }

  /** A posting: the item, its ledger entry, and the allocation of everything still open. */
  function Post(b: Books, p: int, item: Item, id: int, sourceId: int, amount: int, now: int): Books {
    var locked := Lock(b, p);
    Allocate(PostLedger(AddItem(locked, p, item, id, sourceId, amount, now), p, EntryTypeOf(item), sourceId, amount),
             p, now)
  }

  predicate FreshId(b: Books, item: Item, id: int) {
    match item
    case ChargeItem(_, _) => forall i :: 0 <= i < |b.charges| ==> b.charges[i].id != id
    case CreditItem(_) => forall i :: 0 <= i < |b.credits| ==> b.credits[i].id != id
  }
}
