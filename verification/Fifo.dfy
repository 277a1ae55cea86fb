/**
 The pure allocation planner: sorted charges and sorted credits are merged greedily, oldest first.

 `AllocateFifo` is the loop; `Merge` is the same greedy walk as a recursive function; `OverlapPlan`
 is an independent closed form. All amounts are whole cents, dates are day numbers, and ids and
 timestamps are integers (total orders).
 */
module Fifo {
  import opened Seqs

  datatype ChargeInput = ChargeInput(id: int, amount: int, allocatedAmount: int, dueDate: int, createdAt: int) {
    function Remaining(): int { amount - allocatedAmount }
    function Open(): OpenItem { OpenItem(id, if Remaining() < 0 then 0 else Remaining()) }
  }

  datatype CreditInput = CreditInput(id: int, amount: int, allocatedAmount: int, createdAt: int) {
    function Remaining(): int { amount - allocatedAmount }
    function Open(): OpenItem { OpenItem(id, if Remaining() < 0 then 0 else Remaining()) }
  }

  datatype Line = Line(chargeId: int, creditId: int, amount: int)

  datatype DomainError = DuplicateItem | InvalidAmounts

  /** What the walk sees of an item: its id and what is left of it. */
  datatype OpenItem = OpenItem(id: int, left: nat)

  // ---------------------------------------------------------------- orders and validation

  function ChargeBefore(): (ChargeInput, ChargeInput) -> bool {
    (x: ChargeInput, y: ChargeInput) =>
      x.dueDate < y.dueDate
      || (x.dueDate == y.dueDate && (x.createdAt < y.createdAt || (x.createdAt == y.createdAt && x.id < y.id)))
  }

  function CreditBefore(): (CreditInput, CreditInput) -> bool {
    (x: CreditInput, y: CreditInput) => x.createdAt < y.createdAt || (x.createdAt == y.createdAt && x.id < y.id)
  }

  lemma OrdersAreStrict()
    ensures StrictWeak(ChargeBefore()) && StrictWeak(CreditBefore())
  {
  }

  predicate GoodAmounts(amount: int, allocatedAmount: int) { 0 < amount && 0 <= allocatedAmount <= amount }

  function ChargeId(): ChargeInput -> int { (c: ChargeInput) => c.id }

  function CreditId(): CreditInput -> int { (c: CreditInput) => c.id }

  predicate ValidCharges(items: seq<ChargeInput>) {
    && DistinctBy(items, ChargeId())
    && forall c :: c in items ==> GoodAmounts(c.amount, c.allocatedAmount)
  }

  predicate ValidCredits(items: seq<CreditInput>) {
    && DistinctBy(items, CreditId())
    && forall c :: c in items ==> GoodAmounts(c.amount, c.allocatedAmount)
  }

  function OpenCharges(items: seq<ChargeInput>): (r: seq<OpenItem>)
    ensures |r| == |items|
  {
    seq(|items|, i requires 0 <= i < |items| => items[i].Open())
  }

  function OpenCredits(items: seq<CreditInput>): (r: seq<OpenItem>)
    ensures |r| == |items|
  {
    seq(|items|, i requires 0 <= i < |items| => items[i].Open())
  }

  // ---------------------------------------------------------------- the greedy walk

  function Reduce(items: seq<OpenItem>, used: nat): seq<OpenItem>
    requires items != [] && used <= items[0].left
  {
    [OpenItem(items[0].id, items[0].left - used)] + items[1..]
  }

  function Merge(charges: seq<OpenItem>, credits: seq<OpenItem>): seq<Line>
    decreases |charges| + |credits|, if charges == [] || credits == [] then 0 else charges[0].left + credits[0].left
  {
    if charges == [] || credits == [] then []
    else if charges[0].left == 0 then Merge(charges[1..], credits)
    else if credits[0].left == 0 then Merge(charges, credits[1..])
    else
      var used := Min(charges[0].left, credits[0].left);
      [Line(charges[0].id, credits[0].id, used)] + Merge(Reduce(charges, used), Reduce(credits, used))
  }

  /** The plan for unsorted inputs. */
  function Plan(charges: seq<ChargeInput>, credits: seq<CreditInput>): seq<Line> {
    Merge(OpenCharges(Sort(charges, ChargeBefore())), OpenCredits(Sort(credits, CreditBefore())))
  }

  function LeftAt(items: seq<OpenItem>, i: nat): nat {
    if i < |items| then items[i].left else 0
  }

  /** The greedy walk again, over the loop's own variables: two indices and two remainders. */
  function Walk(ch: seq<OpenItem>, i: nat, chargeLeft: nat, cr: seq<OpenItem>, j: nat, creditLeft: nat): seq<Line>
    requires i <= |ch| && j <= |cr|
    decreases |ch| - i + |cr| - j, chargeLeft
  {
    if i == |ch| || j == |cr| then []
    else if chargeLeft == 0 then Walk(ch, i + 1, LeftAt(ch, i + 1), cr, j, creditLeft)
    else if creditLeft == 0 then Walk(ch, i, chargeLeft, cr, j + 1, LeftAt(cr, j + 1))
    else
      var a := Min(chargeLeft, creditLeft);
      [Line(ch[i].id, cr[j].id, a)] + Walk(ch, i, chargeLeft - a, cr, j, creditLeft - a)
  }

  ghost function Ahead(items: seq<OpenItem>, i: nat, left: nat): seq<OpenItem>
    requires i <= |items|
  {
    if i == |items| then [] else [OpenItem(items[i].id, left)] + items[i + 1..]
  }

  lemma MergeHeads(a: seq<OpenItem>, b: seq<OpenItem>, a': seq<OpenItem>, b': seq<OpenItem>)
    requires a != [] && b != [] && a[0].left > 0 && b[0].left > 0
    requires var used := Min(a[0].left, b[0].left); a' == Reduce(a, used) && b' == Reduce(b, used)
    ensures Merge(a, b) == [Line(a[0].id, b[0].id, Min(a[0].left, b[0].left))] + Merge(a', b')
  {
  }

  lemma AheadNone(items: seq<OpenItem>, i: nat, left: nat)
    requires i <= |items|
    ensures Ahead(items, i, left) == [] <==> i == |items|
  {
  }

  lemma AheadSteps(items: seq<OpenItem>, i: nat, left: nat, used: nat)
    requires i < |items| && used <= left
    ensures Ahead(items, i, left)[0] == OpenItem(items[i].id, left)
    ensures Ahead(items, i, left)[1..] == Ahead(items, i + 1, LeftAt(items, i + 1))
    ensures Reduce(Ahead(items, i, left), used) == Ahead(items, i, left - used)
  {
  }

  lemma {:induction false} WalkIsMerge(
      ch: seq<OpenItem>, i: nat, chargeLeft: nat, cr: seq<OpenItem>, j: nat, creditLeft: nat)
    requires i <= |ch| && j <= |cr|
    ensures Walk(ch, i, chargeLeft, cr, j, creditLeft) == Merge(Ahead(ch, i, chargeLeft), Ahead(cr, j, creditLeft))
    decreases |ch| - i + |cr| - j, chargeLeft
  {
    hide Ahead, Reduce, LeftAt;
    AheadNone(ch, i, chargeLeft);
    AheadNone(cr, j, creditLeft);
    if i < |ch| && j < |cr| {
      var used := Min(chargeLeft, creditLeft);
      AheadSteps(ch, i, chargeLeft, used);
      AheadSteps(cr, j, creditLeft, used);
      var a, b := Ahead(ch, i, chargeLeft), Ahead(cr, j, creditLeft);
      if chargeLeft == 0 {
        assert Merge(a, b) == Merge(a[1..], b);
        WalkIsMerge(ch, i + 1, LeftAt(ch, i + 1), cr, j, creditLeft);
      } else if creditLeft == 0 {
        assert Merge(a, b) == Merge(a, b[1..]);
        WalkIsMerge(ch, i, chargeLeft, cr, j + 1, LeftAt(cr, j + 1));
      } else {
        MergeHeads(a, b, Ahead(ch, i, chargeLeft - used), Ahead(cr, j, creditLeft - used));
        WalkIsMerge(ch, i, chargeLeft - used, cr, j, creditLeft - used);
      }
    }
  }

  lemma WalkStart(ch: seq<OpenItem>, cr: seq<OpenItem>)
    ensures Walk(ch, 0, LeftAt(ch, 0), cr, 0, LeftAt(cr, 0)) == Merge(ch, cr)
  {
    assert Ahead(ch, 0, LeftAt(ch, 0)) == ch && Ahead(cr, 0, LeftAt(cr, 0)) == cr;
    WalkIsMerge(ch, 0, LeftAt(ch, 0), cr, 0, LeftAt(cr, 0));
  }

  /** The validation of both lists, the two sorts and the merge. */
  method AllocateFifo(charges: seq<ChargeInput>, credits: seq<CreditInput>)
    returns (r: Result<seq<Line>, DomainError>)
    ensures r.Ok? <==> ValidCharges(charges) && ValidCredits(credits)
    ensures r.Ok? ==> r.value == Plan(charges, credits)
    ensures r.Ok? ==> ChargesInTurn(charges, r.value) && CreditsInTurn(credits, r.value)
    ensures r == Err(DuplicateItem) ==> !DistinctBy(charges, ChargeId()) || !DistinctBy(credits, CreditId())
  {
    if !DistinctBy(charges, ChargeId()) { return Err(DuplicateItem); }
    if exists c :: c in charges && !GoodAmounts(c.amount, c.allocatedAmount) { return Err(InvalidAmounts); }
    if !DistinctBy(credits, CreditId()) { return Err(DuplicateItem); }
    if exists c :: c in credits && !GoodAmounts(c.amount, c.allocatedAmount) { return Err(InvalidAmounts); }
    var orderedCharges := Sort(charges, ChargeBefore());
    var orderedCredits := Sort(credits, CreditBefore());
    InMultiset(charges, orderedCharges);
    InMultiset(credits, orderedCredits);
    var lines := MergeOrdered(orderedCharges, orderedCredits);
    PlanInTurn(charges, credits);
    r := Ok(lines);
  }

  lemma WalkOnCharge(ch: seq<OpenItem>, i: nat, chargeLeft: nat, cr: seq<OpenItem>, j: nat, creditLeft: nat)
    requires i < |ch| && j <= |cr| && (chargeLeft == 0 || j == |cr|)
    ensures Walk(ch, i, chargeLeft, cr, j, creditLeft) == Walk(ch, i + 1, LeftAt(ch, i + 1), cr, j, creditLeft)
  {
  }

  lemma WalkOnCredit(ch: seq<OpenItem>, i: nat, chargeLeft: nat, cr: seq<OpenItem>, j: nat)
    requires i < |ch| && j < |cr| && chargeLeft > 0
    ensures Walk(ch, i, chargeLeft, cr, j, 0) == Walk(ch, i, chargeLeft, cr, j + 1, LeftAt(cr, j + 1))
  {
  }

  lemma WalkTakes(ch: seq<OpenItem>, i: nat, chargeLeft: nat, cr: seq<OpenItem>, j: nat, creditLeft: nat)
    requires i < |ch| && j < |cr| && chargeLeft > 0 && creditLeft > 0
    ensures var share := Min(chargeLeft, creditLeft);
            Walk(ch, i, chargeLeft, cr, j, creditLeft)
            == [Line(ch[i].id, cr[j].id, share)] + Walk(ch, i, chargeLeft - share, cr, j, creditLeft - share)
  {
  }

  lemma WalkEnds(ch: seq<OpenItem>, chargeLeft: nat, cr: seq<OpenItem>, j: nat, creditLeft: nat)
    requires j <= |cr|
    ensures Walk(ch, |ch|, chargeLeft, cr, j, creditLeft) == []
  {
  }

  /** The loops of the planner, with the index and the two running remainders. */
  method MergeOrdered(orderedCharges: seq<ChargeInput>, orderedCredits: seq<CreditInput>)
    returns (lines: seq<Line>)
    requires forall c :: c in orderedCharges ==> GoodAmounts(c.amount, c.allocatedAmount)
    requires forall c :: c in orderedCredits ==> GoodAmounts(c.amount, c.allocatedAmount)
    ensures lines == Merge(OpenCharges(orderedCharges), OpenCredits(orderedCredits))
  {
    hide Merge, Walk;
    ghost var ch, cr := OpenCharges(orderedCharges), OpenCredits(orderedCredits);
    ghost var whole := Walk(ch, 0, LeftAt(ch, 0), cr, 0, LeftAt(cr, 0));
    WalkStart(ch, cr);
    lines := [];
    var creditIndex := 0;
    var creditLeft := if |orderedCredits| > 0 then orderedCredits[0].Remaining() else 0;
    var i := 0;
    while i < |orderedCharges|
      invariant 0 <= i <= |orderedCharges| && 0 <= creditIndex <= |orderedCredits| && creditLeft >= 0
      invariant lines + Walk(ch, i, LeftAt(ch, i), cr, creditIndex, creditLeft) == whole
    {
      var chargeLeft := orderedCharges[i].Remaining();
      while chargeLeft > 0 && creditIndex < |orderedCredits|
        invariant 0 <= creditIndex <= |orderedCredits| && creditLeft >= 0 && chargeLeft >= 0
        invariant lines + Walk(ch, i, chargeLeft, cr, creditIndex, creditLeft) == whole
        decreases |orderedCredits| - creditIndex, chargeLeft
      {
        if creditLeft == 0 {
          WalkOnCredit(ch, i, chargeLeft, cr, creditIndex);
          creditIndex := creditIndex + 1;
          if creditIndex < |orderedCredits| {
            creditLeft := orderedCredits[creditIndex].Remaining();
          }
        } else {
          var share := Min(chargeLeft, creditLeft);
          WalkTakes(ch, i, chargeLeft, cr, creditIndex, creditLeft);
          lines := lines + [Line(orderedCharges[i].id, orderedCredits[creditIndex].id, share)];
          chargeLeft := chargeLeft - share;
          creditLeft := creditLeft - share;
        }
      }
      WalkOnCharge(ch, i, chargeLeft, cr, creditIndex, creditLeft);
      i := i + 1;
    }
    WalkEnds(ch, LeftAt(ch, i), cr, creditIndex, creditLeft);
  }

  // ---------------------------------------------------------------- the closed form

  function LeftOf(): OpenItem -> int { (o: OpenItem) => o.left }

  /** What the first `i` items hold together. */
  function Prefix(items: seq<OpenItem>, i: nat): (r: nat)
    requires i <= |items|
  {
    TotalNonneg(items[..i], LeftOf());
    Total(items[..i], LeftOf())
  }

  lemma PrefixNone(items: seq<OpenItem>)
    ensures Prefix(items, 0) == 0
  {
  }

  lemma PrefixNext(items: seq<OpenItem>, i: nat)
    requires i < |items|
    ensures Prefix(items, 0) == 0
    ensures Prefix(items, i + 1) == Prefix(items, i) + items[i].left
  {
    assert items[..i + 1][..i] == items[..i];
  }

  lemma {:induction false} PrefixMonotone(items: seq<OpenItem>, i: nat, j: nat)
    requires i <= j <= |items|
    ensures Prefix(items, i) <= Prefix(items, j)
    decreases j - i
  {
    if i < j {
      PrefixNext(items, j - 1);
      PrefixMonotone(items, i, j - 1);
    }
  }

  lemma PrefixTail(items: seq<OpenItem>, i: nat)
    requires items != [] && i < |items|
    ensures Prefix(items, i + 1) == items[0].left + Prefix(items[1..], i)
  {
    assert items[..i + 1] == [items[0]] + items[1..][..i];
    TotalAppend([items[0]], items[1..][..i], LeftOf());
    assert [items[0]][..0] == [];
  }

  lemma PrefixReduce(items: seq<OpenItem>, used: nat, i: nat)
    requires items != [] && used <= items[0].left && i < |items|
    ensures Prefix(Reduce(items, used), i + 1) == Prefix(items, i + 1) - used
  {
    var items' := Reduce(items, used);
    PrefixTail(items, i);
    PrefixTail(items', i);
    assert items'[1..] == items[1..];
  }

  /** The length of the overlap of [C_i, C_i+1) and [K_j, K_j+1), C and K the two prefix sums. */
  function Overlap(charges: seq<OpenItem>, credits: seq<OpenItem>, i: nat, j: nat): nat
    requires i < |charges| && j < |credits|
  {
    var upper := Min(Prefix(charges, i + 1), Prefix(credits, j + 1));
    var lower := Max(Prefix(charges, i), Prefix(credits, j));
    if lower < upper then upper - lower else 0
  }

  function Cell(charges: seq<OpenItem>, credits: seq<OpenItem>, i: nat, j: nat): seq<Line>
    requires i < |charges| && j < |credits|
  {
    if Overlap(charges, credits, i, j) == 0 then []
    else [Line(charges[i].id, credits[j].id, Overlap(charges, credits, i, j))]
  }

  function Row(charges: seq<OpenItem>, credits: seq<OpenItem>, i: nat, j: nat): seq<Line>
    requires i < |charges| && j <= |credits|
    decreases |credits| - j
  {
    if j == |credits| then [] else Cell(charges, credits, i, j) + Row(charges, credits, i, j + 1)
  }

  function RowsFrom(charges: seq<OpenItem>, credits: seq<OpenItem>, i: nat): seq<Line>
    requires i <= |charges|
    decreases |charges| - i
  {
    if i == |charges| then [] else Row(charges, credits, i, 0) + RowsFrom(charges, credits, i + 1)
  }

  /** Every non-empty overlap, charge by charge and then credit by credit. */
  function OverlapPlan(charges: seq<OpenItem>, credits: seq<OpenItem>): seq<Line> {
    RowsFrom(charges, credits, 0)
  }

  lemma {:induction false} SameRow(
      a: seq<OpenItem>, b: seq<OpenItem>, i: nat, j: nat, a': seq<OpenItem>, b': seq<OpenItem>, i': nat, j': nat)
    requires i < |a| && j <= |b| && i' < |a'| && j' <= |b'| && |b| - j == |b'| - j'
    requires forall t :: j <= t < |b| ==> Cell(a, b, i, t) == Cell(a', b', i', t - j + j')
    ensures Row(a, b, i, j) == Row(a', b', i', j')
    decreases |b| - j
  {
    if j < |b| {
      assert Cell(a, b, i, j) == Cell(a', b', i', j');
      SameRow(a, b, i, j + 1, a', b', i', j' + 1);
    }
  }

  lemma {:induction false} SameRows(
      a: seq<OpenItem>, b: seq<OpenItem>, i: nat, a': seq<OpenItem>, b': seq<OpenItem>, i': nat)
    requires i <= |a| && i' <= |a'| && |a| - i == |a'| - i'
    requires forall t :: i <= t < |a| ==> Row(a, b, t, 0) == Row(a', b', t - i + i', 0)
    ensures RowsFrom(a, b, i) == RowsFrom(a', b', i')
    decreases |a| - i
  {
    hide Row;
    if i < |a| {
      assert Row(a, b, i, 0) == Row(a', b', i', 0);
      SameRows(a, b, i + 1, a', b', i' + 1);
    }
  }

  lemma {:induction false} EmptyRow(a: seq<OpenItem>, b: seq<OpenItem>, i: nat, j: nat)
    requires i < |a| && j <= |b|
    requires forall t :: j <= t < |b| ==> Overlap(a, b, i, t) == 0
    ensures Row(a, b, i, j) == []
    decreases |b| - j
  {
    if j < |b| { EmptyRow(a, b, i, j + 1); }
  }

  lemma {:induction false} NoCredits(a: seq<OpenItem>, i: nat)
    requires i <= |a|
    ensures RowsFrom(a, [], i) == []
    decreases |a| - i
  {
    if i < |a| { NoCredits(a, i + 1); }
  }

  /** A charge with nothing left has an empty interval, and the others keep theirs. */
  lemma DropCharge(a: seq<OpenItem>, b: seq<OpenItem>)
    requires a != [] && a[0].left == 0
    ensures OverlapPlan(a, b) == OverlapPlan(a[1..], b)
  {
    hide Prefix, Row, Overlap;
    forall t | 0 <= t < |b| ensures Overlap(a, b, 0, t) == 0 { UsedUp(a, b, t); }
    EmptyRow(a, b, 0, 0);
    forall t | 1 <= t < |a| ensures Row(a, b, t, 0) == Row(a[1..], b, t - 1, 0) { RowAfter(a, b, t); }
    SameRows(a, b, 1, a[1..], b, 0);
  }

  lemma UsedUp(a: seq<OpenItem>, b: seq<OpenItem>, t: nat)
    requires a != [] && a[0].left == 0 && t < |b|
    ensures Overlap(a, b, 0, t) == 0
  {
    PrefixNone(a);
    PrefixNext(a, 0);
  }

  lemma RowAfter(a: seq<OpenItem>, b: seq<OpenItem>, t: nat)
    requires a != [] && a[0].left == 0 && 1 <= t < |a|
    ensures Row(a, b, t, 0) == Row(a[1..], b, t - 1, 0)
  {
    hide Prefix, Row;
    PrefixTail(a, t - 1);
    PrefixTail(a, t);
    SameRow(a, b, t, 0, a[1..], b, t - 1, 0);
  }

  lemma DropCredit(a: seq<OpenItem>, b: seq<OpenItem>)
    requires b != [] && b[0].left == 0
    ensures OverlapPlan(a, b) == OverlapPlan(a, b[1..])
  {
    forall i | 0 <= i < |a| ensures Row(a, b, i, 0) == Row(a, b[1..], i, 0) {
      PrefixNext(b, 0);
      assert Overlap(a, b, i, 0) == 0;
      forall t | 1 <= t < |b| ensures Cell(a, b, i, t) == Cell(a, b[1..], i, t - 1) {
        PrefixTail(b, t - 1);
        PrefixTail(b, t);
      }
      SameRow(a, b, i, 1, a, b[1..], i, 0);
    }
    SameRows(a, b, 0, a, b[1..], 0);
  }

  /** Taking `used` off both heads moves every interval by `used`; only the first overlap changes. */
  lemma ShiftCell(a: seq<OpenItem>, b: seq<OpenItem>, used: nat, i: nat, j: nat)
    requires a != [] && b != [] && used == Min(a[0].left, b[0].left) && i < |a| && j < |b|
    ensures i > 0 || j > 0 ==> Cell(a, b, i, j) == Cell(Reduce(a, used), Reduce(b, used), i, j)
    ensures Overlap(a, b, 0, 0) == used && Overlap(Reduce(a, used), Reduce(b, used), 0, 0) == 0
  {
    hide Prefix;
    PrefixNext(a, 0);
    PrefixNext(b, 0);
    PrefixNext(Reduce(a, used), 0);
    PrefixNext(Reduce(b, used), 0);
    PrefixReduce(a, used, i);
    PrefixReduce(b, used, j);
    if i > 0 {
      PrefixReduce(a, used, i - 1);
      PrefixMonotone(a, 1, i);
    }
    if j > 0 {
      PrefixReduce(b, used, j - 1);
      PrefixMonotone(b, 1, j);
    }
  }

  lemma FirstRow(a: seq<OpenItem>, b: seq<OpenItem>, used: nat)
    requires a != [] && b != [] && used == Min(a[0].left, b[0].left) && used > 0
    ensures Row(a, b, 0, 0) == [Line(a[0].id, b[0].id, used)] + Row(Reduce(a, used), Reduce(b, used), 0, 0)
  {
    hide Prefix, Overlap;
    var a', b' := Reduce(a, used), Reduce(b, used);
    ShiftCell(a, b, used, 0, 0);
    forall t | 1 <= t < |b| ensures Cell(a, b, 0, t) == Cell(a', b', 0, t) { ShiftCell(a, b, used, 0, t); }
    SameRow(a, b, 0, 1, a', b', 0, 1);
  }

  lemma LaterRow(a: seq<OpenItem>, b: seq<OpenItem>, used: nat, i: nat)
    requires a != [] && b != [] && used == Min(a[0].left, b[0].left) && 1 <= i < |a|
    ensures Row(a, b, i, 0) == Row(Reduce(a, used), Reduce(b, used), i, 0)
  {
    hide Prefix, Overlap, Cell, Row;
    var a', b' := Reduce(a, used), Reduce(b, used);
    forall t | 0 <= t < |b| ensures Cell(a, b, i, t) == Cell(a', b', i, t) { ShiftCell(a, b, used, i, t); }
    SameRow(a, b, i, 0, a', b', i, 0);
  }

  lemma TakeHeads(a: seq<OpenItem>, b: seq<OpenItem>, used: nat)
    requires a != [] && b != [] && used == Min(a[0].left, b[0].left) && used > 0
    ensures OverlapPlan(a, b) == [Line(a[0].id, b[0].id, used)] + OverlapPlan(Reduce(a, used), Reduce(b, used))
  {
    hide Prefix, Overlap, Row, Cell;
    var a', b' := Reduce(a, used), Reduce(b, used);
    FirstRow(a, b, used);
    forall i | 1 <= i < |a| ensures Row(a, b, i, 0) == Row(a', b', i, 0) { LaterRow(a, b, used, i); }
    SameRows(a, b, 1, a', b', 1);
  }

  /** The greedy walk computes exactly the closed form. */
  lemma {:induction false} MergeIsOverlap(a: seq<OpenItem>, b: seq<OpenItem>)
    ensures Merge(a, b) == OverlapPlan(a, b)
    decreases |a| + |b|, if a == [] || b == [] then 0 else a[0].left + b[0].left
  {
    if a == [] {
    } else if b == [] {
      NoCredits(a, 0);
    } else if a[0].left == 0 {
      DropCharge(a, b);
      MergeIsOverlap(a[1..], b);
    } else if b[0].left == 0 {
      DropCredit(a, b);
      MergeIsOverlap(a, b[1..]);
    } else {
      var used := Min(a[0].left, b[0].left);
      TakeHeads(a, b, used);
      MergeIsOverlap(Reduce(a, used), Reduce(b, used));
    }
  }

  // ---------------------------------------------------------------- what the plan means

  function AmountOf(): Line -> int { (l: Line) => l.amount }

  function ToCharge(id: int): Line -> int { (l: Line) => if l.chargeId == id then l.amount else 0 }

  function FromCredit(id: int): Line -> int { (l: Line) => if l.creditId == id then l.amount else 0 }

  function OpenId(): OpenItem -> int { (o: OpenItem) => o.id }

  lemma TotalCons(l: Line, lines: seq<Line>, f: Line -> int)
    ensures Total([l] + lines, f) == f(l) + Total(lines, f)
  {
    TotalAppend([l], lines, f);
    assert [l][..0] == [];
  }

  /** Everything that can be allocated is: the lines add up to the smaller of the two totals. */
  lemma {:induction false} MergeTotal(a: seq<OpenItem>, b: seq<OpenItem>)
    ensures Total(Merge(a, b), AmountOf()) == Min(Prefix(a, |a|), Prefix(b, |b|))
    ensures forall l :: l in Merge(a, b) ==> l.amount > 0
    decreases |a| + |b|, if a == [] || b == [] then 0 else a[0].left + b[0].left
  {
    hide Prefix;
    PrefixNone(a);
    PrefixNone(b);
    if a == [] || b == [] {
    } else if a[0].left == 0 {
      PrefixTail(a, |a| - 1);
      MergeTotal(a[1..], b);
    } else if b[0].left == 0 {
      PrefixTail(b, |b| - 1);
      MergeTotal(a, b[1..]);
    } else {
      var used := Min(a[0].left, b[0].left);
      var a', b' := Reduce(a, used), Reduce(b, used);
      PrefixReduce(a, used, |a| - 1);
      PrefixReduce(b, used, |b| - 1);
      MergeTotal(a', b');
      MergeHeads(a, b, a', b');
      TotalCons(Line(a[0].id, b[0].id, used), Merge(a', b'), AmountOf());
    }
  }

  predicate Mentions(items: seq<OpenItem>, id: int) {
    exists i :: 0 <= i < |items| && items[i].id == id
  }

  lemma MentionsTail(items: seq<OpenItem>, id: int)
    requires items != [] && Mentions(items[1..], id)
    ensures Mentions(items, id)
  {
  }

  lemma MentionsReduce(items: seq<OpenItem>, used: nat, id: int)
    requires items != [] && used <= items[0].left && Mentions(Reduce(items, used), id)
    ensures Mentions(items, id)
  {
  }

  lemma {:induction false} MergeMentions(a: seq<OpenItem>, b: seq<OpenItem>, l: Line)
    requires l in Merge(a, b)
    ensures Mentions(a, l.chargeId) && Mentions(b, l.creditId)
    decreases |a| + |b|, if a == [] || b == [] then 0 else a[0].left + b[0].left
  {
    if a[0].left == 0 {
      MergeMentions(a[1..], b, l);
      MentionsTail(a, l.chargeId);
    } else if b[0].left == 0 {
      MergeMentions(a, b[1..], l);
      MentionsTail(b, l.creditId);
    } else {
      var used := Min(a[0].left, b[0].left);
      if l == Merge(a, b)[0] {
        assert a[0].id == l.chargeId && b[0].id == l.creditId;
      } else {
        MergeMentions(Reduce(a, used), Reduce(b, used), l);
        MentionsReduce(a, used, l.chargeId);
        MentionsReduce(b, used, l.creditId);
      }
    }
  }

  lemma Untouched(a: seq<OpenItem>, b: seq<OpenItem>, id: int)
    requires !Mentions(a, id)
    ensures Total(Merge(a, b), ToCharge(id)) == 0
  {
    var lines := Merge(a, b);
    forall i | 0 <= i < |lines| ensures ToCharge(id)(lines[i]) == 0 { MergeMentions(a, b, lines[i]); }
    TotalZero(lines, ToCharge(id));
  }

  /**
   A charge receives what the credits hold beyond the charges before it, and no more than it has
   left. So no charge is over-allocated and a charge gets nothing while an earlier one is short.
   */
  lemma {:induction false} ChargeShare(a: seq<OpenItem>, b: seq<OpenItem>, i: nat)
    requires i < |a| && DistinctBy(a, OpenId())
    ensures Total(Merge(a, b), ToCharge(a[i].id))
         == Min(Prefix(a, i + 1), Prefix(b, |b|)) - Min(Prefix(a, i), Prefix(b, |b|))
    decreases |a| + |b|, if b == [] then 0 else a[0].left + b[0].left
  {
    var id := a[i].id;
    PrefixNext(a, i);
    PrefixNext(a, 0);
    if b == [] {
    } else if a[0].left == 0 {
      PrefixTail(a, i);
      if i == 0 {
        forall t | 0 <= t < |a[1..]| ensures a[1..][t].id != id { assert OpenId()(a[0]) != OpenId()(a[t + 1]); }
        Untouched(a[1..], b, id);
      } else {
        PrefixTail(a, i - 1);
        TailDistinct(a);
        ChargeShare(a[1..], b, i - 1);
      }
    } else if b[0].left == 0 {
      PrefixTail(b, |b| - 1);
      ChargeShare(a, b[1..], i);
    } else {
      ChargeShareStep(a, b, i);
    }
  }

  lemma TailDistinct(a: seq<OpenItem>)
    requires a != [] && DistinctBy(a, OpenId())
    ensures DistinctBy(a[1..], OpenId())
  {
  }

  lemma ReduceDistinct(a: seq<OpenItem>, used: nat)
    requires a != [] && used <= a[0].left && DistinctBy(a, OpenId())
    ensures DistinctBy(Reduce(a, used), OpenId())
  {
  }

  lemma {:induction false} ChargeShareStep(a: seq<OpenItem>, b: seq<OpenItem>, i: nat)
    requires i < |a| && DistinctBy(a, OpenId()) && b != [] && a[0].left > 0 && b[0].left > 0
    ensures Total(Merge(a, b), ToCharge(a[i].id))
         == Min(Prefix(a, i + 1), Prefix(b, |b|)) - Min(Prefix(a, i), Prefix(b, |b|))
    decreases |a| + |b|, a[0].left + b[0].left, 0
  {
    var id := a[i].id;
    var used := Min(a[0].left, b[0].left);
    var a', b' := Reduce(a, used), Reduce(b, used);
    ReduceDistinct(a, used);
    PrefixNext(a, 0);
    PrefixNext(a', 0);
    PrefixReduce(a, used, i);
    PrefixReduce(b, used, |b| - 1);
    if i > 0 {
      PrefixReduce(a, used, i - 1);
      PrefixMonotone(a, 1, i);
      assert OpenId()(a[0]) != OpenId()(a[i]);
    }
    PrefixNext(b, 0);
    PrefixMonotone(b, 1, |b|);
    TotalCons(Merge(a, b)[0], Merge(a', b'), ToCharge(id));
    ChargeShare(a', b', i);
  }

  /** A used-up credit at the head changes nothing, whatever the charges. */
  lemma {:induction false} DropUsedCredit(a: seq<OpenItem>, b: seq<OpenItem>)
    requires b != [] && b[0].left == 0
    ensures Merge(a, b) == Merge(a, b[1..])
    decreases |a|
  {
    if a != [] && a[0].left == 0 {
      DropUsedCredit(a[1..], b);
    }
  }

  function Flipped(l: Line): Line { Line(l.creditId, l.chargeId, l.amount) }

  function Flip(lines: seq<Line>): (r: seq<Line>)
    ensures |r| == |lines|
  {
    if lines == [] then [] else [Flipped(lines[0])] + Flip(lines[1..])
  }

  lemma FlipCons(l: Line, lines: seq<Line>)
    ensures Flip([l] + lines) == [Flipped(l)] + Flip(lines)
  {
  }

  /** The walk does not favour a side: with the sides exchanged it plans the same lines. */
  lemma {:induction false} MergeFlips(a: seq<OpenItem>, b: seq<OpenItem>)
    ensures Merge(b, a) == Flip(Merge(a, b))
    decreases |a| + |b|, if a == [] || b == [] then 0 else a[0].left + b[0].left
  {
    if a == [] || b == [] {
    } else if a[0].left == 0 {
      DropUsedCredit(b, a);
      MergeFlips(a[1..], b);
    } else if b[0].left == 0 {
      MergeFlips(a, b[1..]);
    } else {
      var used := Min(a[0].left, b[0].left);
      var l := Line(a[0].id, b[0].id, used);
      MergeHeads(a, b, Reduce(a, used), Reduce(b, used));
      MergeHeads(b, a, Reduce(b, used), Reduce(a, used));
      MergeFlips(Reduce(a, used), Reduce(b, used));
      FlipCons(l, Merge(Reduce(a, used), Reduce(b, used)));
    }
  }

  lemma {:induction false} FlipTotal(lines: seq<Line>, id: int)
    ensures Total(Flip(lines), ToCharge(id)) == Total(lines, FromCredit(id))
  {
    if lines != [] {
      FlipTotal(lines[1..], id);
      TotalCons(Flipped(lines[0]), Flip(lines[1..]), ToCharge(id));
      TotalCons(lines[0], lines[1..], FromCredit(id));
      assert lines == [lines[0]] + lines[1..];
    }
  }

  /** The same for a credit: it gives what the charges want beyond the earlier credits, and no more than it has left. */
  lemma CreditShare(a: seq<OpenItem>, b: seq<OpenItem>, j: nat)
    requires j < |b| && DistinctBy(b, OpenId())
    ensures Total(Merge(a, b), FromCredit(b[j].id))
         == Min(Prefix(b, j + 1), Prefix(a, |a|)) - Min(Prefix(b, j), Prefix(a, |a|))
  {
    hide Merge, Total, Prefix;
    ChargeShare(b, a, j);
    MergeFlips(a, b);
    FlipTotal(Merge(a, b), b[j].id);
  }

  /** The plan does not depend on the order in which the rows were read. */
  lemma PlanPermutation(
      charges: seq<ChargeInput>, charges': seq<ChargeInput>, credits: seq<CreditInput>, credits': seq<CreditInput>)
    requires DistinctBy(charges, ChargeId()) && DistinctBy(credits, CreditId())
    requires multiset(charges) == multiset(charges') && multiset(credits) == multiset(credits')
    ensures Plan(charges, credits) == Plan(charges', credits')
  {
    OrdersAreStrict();
    forall x, y | x in charges && y in charges && x != y ensures ChargeBefore()(x, y) || ChargeBefore()(y, x) {
      DistinctElements(charges, ChargeId(), x, y);
    }
    forall x, y | x in credits && y in credits && x != y ensures CreditBefore()(x, y) || CreditBefore()(y, x) {
      DistinctElements(credits, CreditId(), x, y);
    }
    SortPermutation(charges, charges', ChargeBefore());
    SortPermutation(credits, credits', CreditBefore());
  }

  // ---------------------------------------------------------------- oldest first

  /**
   A charge gets something only when every charge that is due earlier, or on the same day and created
   earlier, or at the same instant with a smaller id, gets all that it still wants.
   */
  ghost predicate ChargesInTurn(charges: seq<ChargeInput>, lines: seq<Line>) {
    forall x, y | x in charges && y in charges && Total(lines, ToCharge(y.id)) > 0 ::
      x.dueDate < y.dueDate
      || (x.dueDate == y.dueDate && x.createdAt < y.createdAt)
      || (x.dueDate == y.dueDate && x.createdAt == y.createdAt && x.id < y.id)
      ==> Total(lines, ToCharge(x.id)) == x.amount - x.allocatedAmount
  }

  /** A credit gives something only when every older one gives all that it still has. */
  ghost predicate CreditsInTurn(credits: seq<CreditInput>, lines: seq<Line>) {
    forall x, y | x in credits && y in credits && Total(lines, FromCredit(y.id)) > 0 ::
      x.createdAt < y.createdAt || (x.createdAt == y.createdAt && x.id < y.id)
      ==> Total(lines, FromCredit(x.id)) == x.amount - x.allocatedAmount
  }

  lemma OpenDistinct(charges: seq<ChargeInput>, credits: seq<CreditInput>)
    ensures DistinctBy(charges, ChargeId()) ==>
      DistinctBy(OpenCharges(Sort(charges, ChargeBefore())), OpenId())
    ensures DistinctBy(credits, CreditId()) ==>
      DistinctBy(OpenCredits(Sort(credits, CreditBefore())), OpenId())
  {
    hide Sort;
    var ch, cr := Sort(charges, ChargeBefore()), Sort(credits, CreditBefore());
    if DistinctBy(charges, ChargeId()) {
      PermutationDistinct(charges, ch, ChargeId());
      forall i, j | 0 <= i < j < |ch| ensures ch[i].id != ch[j].id { assert ChargeId()(ch[i]) != ChargeId()(ch[j]); }
    }
    if DistinctBy(credits, CreditId()) {
      PermutationDistinct(credits, cr, CreditId());
      forall i, j | 0 <= i < j < |cr| ensures cr[i].id != cr[j].id { assert CreditId()(cr[i]) != CreditId()(cr[j]); }
    }
  }

  /** Of two shares cut from a total `k` in turn, the later is empty unless the earlier is whole. */
  lemma EarlierShareIsWhole(list: seq<OpenItem>, i: nat, j: nat, k: nat)
    requires i < j < |list| && Min(Prefix(list, j + 1), k) - Min(Prefix(list, j), k) > 0
    ensures Min(Prefix(list, i + 1), k) - Min(Prefix(list, i), k) == list[i].left
  {
    hide Prefix;
    PrefixNext(list, i);
    PrefixNext(list, j);
    PrefixMonotone(list, i + 1, j);
  }

  /** The places of two elements in the sorted list. */
  lemma PlacesInSort<T(!new)>(s: seq<T>, lt: (T, T) -> bool, x: T, y: T) returns (i: nat, j: nat)
    requires StrictWeak(lt) && x in s && y in s && lt(x, y)
    ensures i < j < |Sort(s, lt)| && Sort(s, lt)[i] == x && Sort(s, lt)[j] == y
  {
    hide Sort;
    SortSorted(s, lt);
    InMultiset(s, Sort(s, lt));
    i :| 0 <= i < |Sort(s, lt)| && Sort(s, lt)[i] == x;
    j :| 0 <= j < |Sort(s, lt)| && Sort(s, lt)[j] == y;
  }

  lemma ChargeInTurn(charges: seq<ChargeInput>, credits: seq<CreditInput>, x: ChargeInput, y: ChargeInput)
    requires ValidCharges(charges) && x in charges && y in charges && ChargeBefore()(x, y)
    requires Total(Plan(charges, credits), ToCharge(y.id)) > 0
    ensures Total(Plan(charges, credits), ToCharge(x.id)) == x.Remaining()
  {
    hide Merge, Sort, Total, Prefix, Min, ToCharge, ChargeBefore, DistinctBy;
    OrdersAreStrict();
    var i, j := PlacesInSort(charges, ChargeBefore(), x, y);
    var a, b := OpenCharges(Sort(charges, ChargeBefore())), OpenCredits(Sort(credits, CreditBefore()));
    OpenDistinct(charges, credits);
    ChargeShare(a, b, i);
    ChargeShare(a, b, j);
    EarlierShareIsWhole(a, i, j, Prefix(b, |b|));
  }

  lemma CreditInTurn(charges: seq<ChargeInput>, credits: seq<CreditInput>, x: CreditInput, y: CreditInput)
    requires ValidCredits(credits) && x in credits && y in credits && CreditBefore()(x, y)
    requires Total(Plan(charges, credits), FromCredit(y.id)) > 0
    ensures Total(Plan(charges, credits), FromCredit(x.id)) == x.Remaining()
  {
    hide Merge, Sort, Total, Prefix, Min, FromCredit, CreditBefore, DistinctBy;
    OrdersAreStrict();
    var i, j := PlacesInSort(credits, CreditBefore(), x, y);
    var a, b := OpenCharges(Sort(charges, ChargeBefore())), OpenCredits(Sort(credits, CreditBefore()));
    OpenDistinct(charges, credits);
    CreditShare(a, b, i);
    CreditShare(a, b, j);
    EarlierShareIsWhole(b, i, j, Prefix(a, |a|));
  }

  /** The plan is in turn on both sides: oldest charges first, out of the oldest credits. */
  lemma PlanInTurn(charges: seq<ChargeInput>, credits: seq<CreditInput>)
    requires ValidCharges(charges) && ValidCredits(credits)
    ensures ChargesInTurn(charges, Plan(charges, credits)) && CreditsInTurn(credits, Plan(charges, credits))
  {
    hide Plan, Total, ValidCharges, ValidCredits;
    var lines := Plan(charges, credits);
    forall x, y | x in charges && y in charges && Total(lines, ToCharge(y.id)) > 0 && ChargeBefore()(x, y)
      ensures Total(lines, ToCharge(x.id)) == x.Remaining()
    {
      ChargeInTurn(charges, credits, x, y);
    }
    forall x, y | x in credits && y in credits && Total(lines, FromCredit(y.id)) > 0 && CreditBefore()(x, y)
      ensures Total(lines, FromCredit(x.id)) == x.Remaining()
    {
      CreditInTurn(charges, credits, x, y);
    }
  }
}
