/** The main results about runs of the finance writer, and the preview that predicts it. */
module FinanceTheorems {
  import opened Seqs
  import opened Fifo
  import opened Books
  import opened BooksProofs
  import opened Posting
  import opened Finance
  import opened FinanceProofs

  // ---------------------------------------------------------------- conservation

  /** After any run the three records of the money agree, and every entry carries its prefix sum. */
  lemma RunConserves(ops: seq<Op>, p: int)
    ensures var b := Reached(ops).books;
      && BalanceOf(b, p) == LedgerTotal(b.ledger, p)
      && BalanceOf(b, p) == Outstanding(b, p) - Unapplied(b, p)
      && (forall k :: 0 <= k < |b.ledger| ==>
            b.ledger[k].balanceAfter == LedgerTotal(b.ledger[..k + 1], b.ledger[k].partnership))
      && (forall i :: 0 <= i < |b.charges| ==>
            b.charges[i].allocatedAmount
            == Total(b.allocations, RowToCharge(b.charges[i].partnership, b.charges[i].id)))
      && (forall j :: 0 <= j < |b.credits| ==>
            b.credits[j].allocatedAmount
            == Total(b.allocations, RowFromCredit(b.credits[j].partnership, b.credits[j].id)))
  {
    ReachedIsGood(ops);
    assert MoneyOk(Reached(ops).books, p);
  }

  /** Nothing is open on both sides: the open items are the balance, and only the balance. */
  lemma RunIsQuiescent(ops: seq<Op>, p: int)
    ensures var b := Reached(ops).books;
      Outstanding(b, p) == Max(BalanceOf(b, p), 0) && Unapplied(b, p) == Max(-BalanceOf(b, p), 0)
  {
    ReachedIsGood(ops);
    assert MoneyOk(Reached(ops).books, p);
  }

  /** The amounts posted for a partnership, as debits and credits. */
  function PostingsOf(ledger: seq<Entry>, p: int): seq<Entry> {
    Filter(ledger, (e: Entry) => e.partnership == p)
  }

  function Bare(e: Entry): (EntryType, int) { (e.entryType, e.amount) }

  function BareAll(es: seq<Entry>): seq<(EntryType, int)> {
    seq(|es|, i requires 0 <= i < |es| => Bare(es[i]))
  }

  function SignedBare(): ((EntryType, int)) -> int {
    (e: (EntryType, int)) => if IsDebit(e.0) then e.1 else -e.1
  }

  lemma {:induction false} TotalBare(es: seq<Entry>)
    ensures Total(BareAll(es), SignedBare()) == Total(es, (e: Entry) => SignedAmount(e))
  {
    if es != [] {
      var n := |es| - 1;
      assert BareAll(es)[..n] == BareAll(es[..n]);
      TotalBare(es[..n]);
    }
  }

  /**
   Two runs that posted the same amounts, in whatever order and interleaving, leave a partnership
   with the same balance, the same outstanding and the same unapplied amount.
   */
  lemma OrderDoesNotMatter(ops: seq<Op>, ops': seq<Op>, p: int)
    requires var l, l' := Reached(ops).books.ledger, Reached(ops').books.ledger;
      multiset(BareAll(PostingsOf(l, p))) == multiset(BareAll(PostingsOf(l', p)))
    ensures var b, b' := Reached(ops).books, Reached(ops').books;
      && BalanceOf(b, p) == BalanceOf(b', p)
      && Outstanding(b, p) == Outstanding(b', p) && Unapplied(b, p) == Unapplied(b', p)
  {
    var l, l' := Reached(ops).books.ledger, Reached(ops').books.ledger;
    TotalPermutation(BareAll(PostingsOf(l, p)), BareAll(PostingsOf(l', p)), SignedBare());
    TotalBare(PostingsOf(l, p));
    TotalBare(PostingsOf(l', p));
    TotalFilter(l, (e: Entry) => e.partnership == p, (e: Entry) => SignedAmount(e), Signed(p));
    TotalFilter(l', (e: Entry) => e.partnership == p, (e: Entry) => SignedAmount(e), Signed(p));
    RunConserves(ops, p);
    RunConserves(ops', p);
    RunIsQuiescent(ops, p);
    RunIsQuiescent(ops', p);
  }

  /** Over a whole run no two items are joined twice, and there are fewer rows than items. */
  lemma AllocationHistory(ops: seq<Op>, p: int)
    ensures var b := Reached(ops).books;
      && (forall k, l :: 0 <= k < l < |b.allocations| ==>
            b.allocations[k].chargeId != b.allocations[l].chargeId
            || b.allocations[k].creditId != b.allocations[l].creditId)
      && RowCount(b, p) <= Max(ItemCount(b, p) - 1, 0)
  {
    ReachedIsGood(ops);
    var b := Reached(ops).books;
    assert CountOk(b, p);
    TotalNonneg(b.charges, OneCharge(p));
    TotalNonneg(b.credits, OneCredit(p));
  }

  /** The ledger is append-only and rows are never removed: a run only extends the books it starts from. */
  lemma {:induction false} RunExtends(s: Store, ops: seq<Op>)
    requires StoreInv(s)
    ensures Extends(s.books, Run(s, ops).books)
  {
    if ops != [] {
      var m := Run(s, ops[..|ops| - 1]);
      RunExtends(s, ops[..|ops| - 1]);
      RunKeeps(s, ops[..|ops| - 1]);
      StepExtends(m, ops[|ops| - 1]);
      ExtendsTransitive(s.books, m.books, Run(s, ops).books);
    }
  }

  lemma StepExtends(s: Store, op: Op)
    requires SourcesInv(s)
    ensures Extends(s.books, Step(s, op).books)
  {
    if Try(s, op).Ok? {
      var c := ChangeIsExact(s, op);
      match c
      case Kept =>
      case Locked(p) => PostExtends(s.books, p, CreditItem(PaymentCredit), 0, 0, 0, 0);
      case Posted(p, item, id, sourceId, amount, now) => PostExtends(s.books, p, item, id, sourceId, amount, now);
    }
  }

  lemma ExtendsTransitive(a: Books, b: Books, c: Books)
    requires Extends(a, b) && Extends(b, c)
    ensures Extends(a, c)
  {
  }

  // ---------------------------------------------------------------- refunds

  /**
   An approved refund is paid by the credit it returns in the same step, leaves nothing else
   outstanding, and never makes the store owe money.
   */
  lemma RefundIsPaidAtOnce(
      s: Store, adjustment: int, expected: nat, user: int, chargeId: int, now: int, allowed: bool)
    requires StoreInv(s) && ApproveAdjustment(s, adjustment, expected, user, chargeId, now, allowed).Ok?
    requires s.adjustments[adjustment].kind == RefundAdjustment
    ensures var a := s.adjustments[adjustment];
      var b' := ApproveAdjustment(s, adjustment, expected, user, chargeId, now, allowed).value.books;
      && |b'.charges| == |s.books.charges| + 1
      && b'.charges[|s.books.charges|].id == chargeId
      && b'.charges[|s.books.charges|].kind == RefundCharge
      && b'.charges[|s.books.charges|].status == Paid
      && b'.charges[|s.books.charges|].allocatedAmount == a.amount
      && BalanceOf(b', a.partnership) == BalanceOf(s.books, a.partnership) + a.amount <= 0
      && Outstanding(b', a.partnership) == 0
  {
    hide Post, Total;
    var a := s.adjustments[adjustment];
    var p, item := a.partnership, ItemOf(a.kind, now);
    var b' := Post(s.books, p, item, chargeId, adjustment, a.amount, now);
    assert MoneyOk(s.books, p);
    PostMoney(s.books, p, item, chargeId, adjustment, a.amount, now, p);
    PostKeepsBooks(s.books, p, item, chargeId, adjustment, a.amount, now);
    PostShape(s.books, p, item, chargeId, adjustment, a.amount, now);
    NothingLeft(b', p, |s.books.charges|);
  }

  lemma NothingLeft(b: Books, p: int, i: nat)
    requires RowsOk(b) && Outstanding(b, p) == 0 && i < |b.charges| && b.charges[i].partnership == p
    ensures b.charges[i].status == Paid && b.charges[i].allocatedAmount == b.charges[i].amount
  {
    forall x | 0 <= x < |b.charges| ensures ChargeLeft(p)(b.charges[x]) >= 0 { assert ChargeOk(b.charges[x]); }
    TotalNonneg(b.charges, ChargeLeft(p));
    assert ChargeLeft(p)(b.charges[i]) <= 0;
    assert ChargeOk(b.charges[i]);
  }

  // ---------------------------------------------------------------- previews

  predicate IsFrom(l: Line, id: int) { l.creditId == id }

  /** What a payment of `amount` would be spent on if it were confirmed next. */
  function AllocationPreview(s: Store, p: int, amount: int, hypothetical: int, now: int): Result<seq<Line>, Error> {
    if !PaymentAmount(amount) then Err(PaymentAmountInvalid)
    else if p !in s.partners then Err(NotFound)
    else if !FreshId(s.books, CreditItem(PaymentCredit), hypothetical) then Err(IntegrityError)
    else
      var credits := OpenCreditInputs(s.books, p) + [CreditInput(hypothetical, amount, 0, now)];
      Ok(Filter(Plan(OpenChargeInputs(s.books, p), credits), (l: Line) => IsFrom(l, hypothetical)))
  }

  /** The charge and the amount of a line, without the credit that pays. */
  function Shares(lines: seq<Line>): (r: seq<(int, int)>)
    ensures |r| == |lines|
  {
    seq(|lines|, i requires 0 <= i < |lines| => (lines[i].chargeId, lines[i].amount))
  }

  lemma {:induction false} FilterAll(lines: seq<Line>, id: int)
    requires forall l :: l in lines ==> l.creditId == id
    ensures Filter(lines, (l: Line) => IsFrom(l, id)) == lines
  {
    if lines != [] {
      var n := |lines| - 1;
      assert lines == lines[..n] + [lines[n]];
      FilterAll(lines[..n], id);
    }
  }

  /** A single credit pays the same charges whatever its id. */
  lemma {:induction false} SingleCredit(ch: seq<OpenItem>, id: int, id': int, left: nat)
    ensures Shares(Merge(ch, [OpenItem(id, left)])) == Shares(Merge(ch, [OpenItem(id', left)]))
    ensures forall l :: l in Merge(ch, [OpenItem(id, left)]) ==> l.creditId == id
    decreases |ch|, left
  {
    var k, k' := [OpenItem(id, left)], [OpenItem(id', left)];
    if ch == [] || (ch[0].left > 0 && left == 0) {
      assert k[1..] == [] && k'[1..] == [];
    } else if ch[0].left == 0 {
      SingleCredit(ch[1..], id, id', left);
    } else {
      var used := Min(ch[0].left, left);
      var ch' := Reduce(ch, used);
      assert Reduce(k, used) == [OpenItem(id, left - used)];
      assert Reduce(k', used) == [OpenItem(id', left - used)];
      SingleCredit(ch', id, id', left - used);
      var rest, rest' := Merge(ch', [OpenItem(id, left - used)]), Merge(ch', [OpenItem(id', left - used)]);
      MergeHeads(ch, k, ch', Reduce(k, used));
      MergeHeads(ch, k', ch', Reduce(k', used));
      assert Shares([Line(ch[0].id, id, used)] + rest) == [(ch[0].id, used)] + Shares(rest);
      assert Shares([Line(ch[0].id, id', used)] + rest') == [(ch[0].id, used)] + Shares(rest');
    }
  }

  lemma NoneOpen(b: Books, p: int)
    requires RowsOk(b) && (Outstanding(b, p) == 0 || Unapplied(b, p) == 0)
    ensures OpenChargeInputs(b, p) == [] || OpenCreditInputs(b, p) == []
  {
    if Outstanding(b, p) == 0 {
      var rows := Filter(b.charges, IsOpenCharge(p));
      if rows != [] {
        assert rows[0] in b.charges;
        var i :| 0 <= i < |b.charges| && b.charges[i] == rows[0];
        NothingLeft(b, p, i);
      }
    } else {
      var rows := Filter(b.credits, IsOpenCredit(p));
      if rows != [] {
        assert rows[0] in b.credits;
        var i :| 0 <= i < |b.credits| && b.credits[i] == rows[0];
        NothingUnapplied(b, p, i);
      }
    }
  }

  lemma NothingUnapplied(b: Books, p: int, i: nat)
    requires RowsOk(b) && Unapplied(b, p) == 0 && i < |b.credits| && b.credits[i].partnership == p
    ensures b.credits[i].allocatedAmount == b.credits[i].amount
  {
    forall x | 0 <= x < |b.credits| ensures CreditLeft(p)(b.credits[x]) >= 0 { assert CreditOk(b.credits[x]); }
    TotalNonneg(b.credits, CreditLeft(p));
    assert CreditLeft(p)(b.credits[i]) <= 0;
    assert CreditOk(b.credits[i]);
  }

  /** With one side empty, the lines of a new credit do not depend on its id or its time. */
  lemma LastCreditOnly(ch: seq<ChargeInput>, cr: seq<CreditInput>, k: CreditInput, k': CreditInput)
    requires ch == [] || cr == []
    requires k.amount == k'.amount > 0 && k.allocatedAmount == k'.allocatedAmount == 0
    ensures Shares(Filter(Plan(ch, cr + [k]), (l: Line) => IsFrom(l, k.id)))
         == Shares(Filter(Plan(ch, cr + [k']), (l: Line) => IsFrom(l, k'.id)))
    ensures cr == [] ==>
      Filter(Plan(ch, cr + [k]), (l: Line) => IsFrom(l, k.id))
      == Merge(OpenCharges(Sort(ch, ChargeBefore())), [OpenItem(k.id, k.amount)])
  {
    if cr == [] {
      assert cr + [k] == [k] && cr + [k'] == [k'];
      SingleSorted(k);
      SingleSorted(k');
      var list := OpenCharges(Sort(ch, ChargeBefore()));
      SingleCredit(list, k.id, k'.id, k.amount);
      SingleCredit(list, k'.id, k.id, k.amount);
      FilterAll(Merge(list, [OpenItem(k.id, k.amount)]), k.id);
      FilterAll(Merge(list, [OpenItem(k'.id, k.amount)]), k'.id);
    }
  }

  lemma SingleSorted(k: CreditInput)
    requires k.amount > 0 && k.allocatedAmount == 0
    ensures OpenCredits(Sort([k], CreditBefore())) == [OpenItem(k.id, k.amount)]
  {
  }

  lemma PreparedInputs(b: Books, p: int, id: int, sourceId: int, amount: int, now: int)
    requires amount > 0
    ensures var m := Prepared(b, p, CreditItem(PaymentCredit), id, sourceId, amount, now);
      && OpenChargeInputs(m, p) == OpenChargeInputs(b, p)
      && OpenCreditInputs(m, p) == OpenCreditInputs(b, p) + [CreditInput(id, amount, 0, now)]
  {
  }

  /** The allocation rows of one credit that a step wrote behind the first `n`. */
  function WrittenFor(b: Books, n: nat, credit: int): seq<Allocation>
    requires n <= |b.allocations|
  {
    Filter(b.allocations[n..], (a: Allocation) => a.creditId == credit)
  }

  function RowShares(rows: seq<Allocation>): (r: seq<(int, int)>)
    ensures |r| == |rows|
  {
    seq(|rows|, i requires 0 <= i < |rows| => (rows[i].chargeId, rows[i].amount))
  }

  lemma {:induction false} RowsMirrorLines(p: int, lines: seq<Line>, credit: int)
    ensures RowShares(Filter(RowsFor(p, lines), (a: Allocation) => a.creditId == credit))
         == Shares(Filter(lines, (l: Line) => IsFrom(l, credit)))
  {
    if lines != [] {
      var init, last := lines[..|lines| - 1], lines[|lines| - 1];
      assert lines == init + [last];
      RowsMirrorLines(p, init, credit);
      RowsMirrorSnoc(p, init, last, credit);
    }
  }

  lemma RowsMirrorSnoc(p: int, init: seq<Line>, last: Line, credit: int)
    requires RowShares(Filter(RowsFor(p, init), (a: Allocation) => a.creditId == credit))
          == Shares(Filter(init, (l: Line) => IsFrom(l, credit)))
    ensures RowShares(Filter(RowsFor(p, init + [last]), (a: Allocation) => a.creditId == credit))
         == Shares(Filter(init + [last], (l: Line) => IsFrom(l, credit)))
  {
    var ofCredit := (a: Allocation) => a.creditId == credit;
    var fromCredit := (l: Line) => IsFrom(l, credit);
    RowsSnoc(p, init, last, Filter(RowsFor(p, init), ofCredit), Filter(init, fromCredit));
    FilterSnoc(RowsFor(p, init), Allocation(p, last.chargeId, last.creditId, last.amount), ofCredit);
    FilterSnoc(init, last, fromCredit);
  }

  lemma RowsSnoc(p: int, init: seq<Line>, last: Line, rows: seq<Allocation>, lines: seq<Line>)
    ensures var row := Allocation(p, last.chargeId, last.creditId, last.amount);
      && RowsFor(p, init + [last]) == RowsFor(p, init) + [row]
      && RowShares(rows + [row]) == RowShares(rows) + [(last.chargeId, last.amount)]
      && Shares(lines + [last]) == Shares(lines) + [(last.chargeId, last.amount)]
  {
  }

  lemma WriterRows(b: Books, p: int, creditId: int, payment: int, amount: int, now: int)
    requires BooksInv(b) && FreshId(b, CreditItem(PaymentCredit), creditId) && amount > 0
    ensures var b' := Post(b, p, CreditItem(PaymentCredit), creditId, payment, amount, now);
      var lines := Plan(OpenChargeInputs(b, p), OpenCreditInputs(b, p) + [CreditInput(creditId, amount, 0, now)]);
      && |b.allocations| <= |b'.allocations|
      && RowShares(WrittenFor(b', |b.allocations|, creditId))
         == Shares(Filter(lines, (l: Line) => IsFrom(l, creditId)))
  {
    var item := CreditItem(PaymentCredit);
    var b' := Post(b, p, item, creditId, payment, amount, now);
    PostKeepsBooks(b, p, item, creditId, payment, amount, now);
    var lines := PlanFor(Prepared(b, p, item, creditId, payment, amount, now), p);
    assert b'.allocations[|b.allocations|..] == RowsFor(p, lines);
    RowsMirrorLines(p, lines, creditId);
    PreparedInputs(b, p, creditId, payment, amount, now);
  }

  /**
   The preview predicts the writer: confirming a pending payment of the previewed amount next, under
   whatever credit id and at whatever time, writes for its credit exactly the previewed charges and
   amounts, in the previewed order.
   */
  lemma PreviewPredictsWriter(
      s: Store, payment: int, expected: nat, creditId: int, now: int, allowed: bool,
      hypothetical: int, previewedAt: int)
    requires StoreInv(s) && ConfirmPayment(s, payment, expected, creditId, now, allowed).Ok?
    requires FreshId(s.books, CreditItem(PaymentCredit), hypothetical)
    ensures var pay := s.payments[payment];
      var b' := ConfirmPayment(s, payment, expected, creditId, now, allowed).value.books;
      var preview := AllocationPreview(s, pay.partnership, pay.amount, hypothetical, previewedAt);
      && preview.Ok?
      && |s.books.allocations| <= |b'.allocations|
      && RowShares(WrittenFor(b', |s.books.allocations|, creditId)) == Shares(preview.value)
  {
    var pay := s.payments[payment];
    var p, amount, b := pay.partnership, pay.amount, s.books;
    WriterRows(b, p, creditId, payment, amount, now);
    assert MoneyOk(b, p);
    NoneOpen(b, p);
    LastCreditOnly(OpenChargeInputs(b, p), OpenCreditInputs(b, p),
                   CreditInput(creditId, amount, 0, now), CreditInput(hypothetical, amount, 0, previewedAt));
  }

  lemma {:induction false} TotalPairs<A(!new), B(!new)>(s: seq<A>, t: seq<B>, f: A -> int, g: B -> int)
    requires |s| == |t| && forall i :: 0 <= i < |s| ==> f(s[i]) == g(t[i])
    ensures Total(s, f) == Total(t, g)
  {
    if s != [] { TotalPairs(s[..|s| - 1], t[..|t| - 1], f, g); }
  }

  /** What the planner sees of the open charges adds up to the outstanding amount. */
  lemma OpenAddsUp(b: Books, p: int)
    requires RowsOk(b)
    ensures var list := OpenCharges(Sort(OpenChargeInputs(b, p), ChargeBefore()));
      Prefix(list, |list|) == Outstanding(b, p)
  {
    var rows := Filter(b.charges, IsOpenCharge(p));
    var inputs := OpenChargeInputs(b, p);
    var sorted := Sort(inputs, ChargeBefore());
    var list := OpenCharges(sorted);
    assert list[..|list|] == list;
    var remaining := (c: ChargeInput) => c.Open().left;
    TotalPairs(list, sorted, LeftOf(), remaining);
    TotalPermutation(sorted, inputs, remaining);
    TotalPairs(inputs, rows, remaining, (c: Charge) => ChargeInputOf(c).Open().left);
    forall i | 0 <= i < |b.charges|
      ensures ChargeLeft(p)(b.charges[i])
           == if IsOpenCharge(p)(b.charges[i]) then ChargeInputOf(b.charges[i]).Open().left else 0
    {
      assert ChargeOk(b.charges[i]);
    }
    TotalFilter(b.charges, IsOpenCharge(p), (c: Charge) => ChargeInputOf(c).Open().left, ChargeLeft(p));
  }

  lemma NoChargesNoLines(cr: seq<CreditInput>, id: int)
    ensures OpenCharges(Sort([], ChargeBefore())) == []
    ensures Total(Filter(Plan([], cr), (l: Line) => IsFrom(l, id)), AmountOf()) == 0
  {
    var none: seq<ChargeInput> := [];
    assert Sort(none, ChargeBefore()) == [];
    assert Plan(none, cr) == [];
  }

  lemma LastCreditTotal(ch: seq<ChargeInput>, cr: seq<CreditInput>, k: CreditInput)
    requires (ch == [] || cr == []) && k.amount > 0 && k.allocatedAmount == 0
    ensures var list := OpenCharges(Sort(ch, ChargeBefore()));
      Total(Filter(Plan(ch, cr + [k]), (l: Line) => IsFrom(l, k.id)), AmountOf())
      == Min(k.amount, Prefix(list, |list|))
  {
    hide Sort, Filter, Plan, Merge, Total, Prefix;
    var list := OpenCharges(Sort(ch, ChargeBefore()));
    LastCreditOnly(ch, cr, k, k);
    if cr == [] {
      MergeTotal(list, [OpenItem(k.id, k.amount)]);
      PrefixNone([OpenItem(k.id, k.amount)]);
      PrefixNext([OpenItem(k.id, k.amount)], 0);
    } else {
      NoChargesNoLines(cr + [k], k.id);
      PrefixNone(list);
    }
  }

  /** The previewed lines add up to what the payment can settle; the rest would stay unapplied. */
  lemma PreviewTotal(s: Store, p: int, amount: int, hypothetical: int, now: int)
    requires StoreInv(s) && AllocationPreview(s, p, amount, hypothetical, now).Ok?
    ensures var lines := AllocationPreview(s, p, amount, hypothetical, now).value;
      Total(lines, AmountOf()) == Min(amount, Outstanding(s.books, p))
  {
    hide Total, Sort, Filter, Plan, Prefix;
    assert MoneyOk(s.books, p);
    NoneOpen(s.books, p);
    OpenAddsUp(s.books, p);
    LastCreditTotal(OpenChargeInputs(s.books, p), OpenCreditInputs(s.books, p),
                    CreditInput(hypothetical, amount, 0, now));
  }
}
