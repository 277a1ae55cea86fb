/**
 The prices of one unit on one list: rows with half-open validity intervals, edited in place under the
 table's constraints, read as a step function of time.
 */
module Prices {
  import opened Seqs

  /** Valid on [start, end), or from `start` on. */
  datatype Price = Price(id: nat, value: int, start: int, end: Option<int>)

  datatype Error = Inactive | PastStart | CancelFutureFirst | ConstraintViolated | NotFound | Immutable

  // ---------------------------------------------------------------- the table

  /** The first row that satisfies `p`; the number of rows when there is none. */
  function Find(rows: seq<Price>, p: Price -> bool): (i: nat)
    ensures i <= |rows|
    ensures i < |rows| ==> p(rows[i])
    ensures forall k :: 0 <= k < i ==> !p(rows[k])
  {
    if rows == [] then 0
    else
      var i := Find(rows[..|rows| - 1], p);
      if i < |rows| - 1 then i else if p(rows[|rows| - 1]) then |rows| - 1 else |rows|
  }

  function IsCurrent(): Price -> bool { (p: Price) => p.end == None }

  function HasId(id: nat): Price -> bool { (p: Price) => p.id == id }

  function EndsAt(t: int): Price -> bool { (p: Price) => p.end == Some(t) }

  function Covers(t: int): Price -> bool { (p: Price) => p.start <= t && (p.end == None || p.end.value > t) }

  predicate Overlap(p: Price, q: Price) {
    (q.end == None || p.start < q.end.value) && (p.end == None || q.start < p.end.value)
  }

  /** The table's constraints: positive prices, no empty or reversed period, no overlap. */
  predicate Legal(rows: seq<Price>) {
    && (forall i :: 0 <= i < |rows| ==> rows[i].value > 0 && (rows[i].end == None || rows[i].end.value > rows[i].start))
    && (forall i, j :: 0 <= i < j < |rows| ==> !Overlap(rows[i], rows[j]))
  }

  // ---------------------------------------------------------------- set, cancel, look up

  function Appended(rows: seq<Price>, i: nat, p: Price): seq<Price> {
    (if i < |rows| then rows[i := rows[i].(end := Some(p.start))] else rows) + [p]
  }

  /** `active` says that the price list and the unit both are. */
  function SetPrice(rows: seq<Price>, id: nat, active: bool, value: int, validFrom: Option<int>, now: int)
    : Result<seq<Price>, Error>
  {
    var starts := if validFrom.Some? then validFrom.value else now;
    var i := Find(rows, IsCurrent());
    if !active then Err(Inactive)
    else if starts < now then Err(PastStart)
    else if i < |rows| && rows[i].start > now then Err(CancelFutureFirst)
    else
      var written := Appended(rows, i, Price(id, value, starts, None));
      if Legal(written) then Ok(written) else Err(ConstraintViolated)
  }

  function Reopened(rows: seq<Price>, i: nat): seq<Price>
    requires i < |rows|
  {
    var j := Find(rows, EndsAt(rows[i].start));
    var open_ := if j < |rows| then rows[j := rows[j].(end := None)] else rows;
    open_[..i] + open_[i + 1..]
  }

  function CancelPrice(rows: seq<Price>, id: nat, now: int): Result<seq<Price>, Error> {
    var i := Find(rows, HasId(id));
    if i == |rows| then Err(NotFound)
    else if rows[i].start <= now then Err(Immutable)
    else if Legal(Reopened(rows, i)) then Ok(Reopened(rows, i)) else Err(ConstraintViolated)
  }

  function Lookup(rows: seq<Price>, t: int): Option<int> {
    var i := Find(rows, Covers(t));
    if i < |rows| then Some(rows[i].value) else None
  }

  // ---------------------------------------------------------------- in place

  class Timeline {
    var rows: seq<Price>

    /** The old current price is closed before the new one is inserted; a broken constraint undoes both. */
    method Set(id: nat, active: bool, value: int, validFrom: Option<int>, now: int) returns (error: Option<Error>)
      modifies this
      ensures match SetPrice(old(rows), id, active, value, validFrom, now)
              case Ok(written) => error == None && rows == written
              case Err(e) => error == Some(e) && rows == old(rows)
    {
      if !active { return Some(Inactive); }
      var before := rows;
      var starts := if validFrom.Some? then validFrom.value else now;
      if validFrom.Some? && starts < now { return Some(PastStart); }
      var i := Find(rows, IsCurrent());
      if i < |rows| {
        if rows[i].start > now { return Some(CancelFutureFirst); }
        rows := rows[i := rows[i].(end := Some(starts))];
      }
      rows := rows + [Price(id, value, starts, None)];
      if !Legal(rows) {
        rows := before;
        return Some(ConstraintViolated);
      }
      error := None;
    }

    method Cancel(id: nat, now: int) returns (error: Option<Error>)
      modifies this
      ensures match CancelPrice(old(rows), id, now)
              case Ok(written) => error == None && rows == written
              case Err(e) => error == Some(e) && rows == old(rows)
    {
      var before := rows;
      var i := Find(rows, HasId(id));
      if i == |rows| { return Some(NotFound); }
      var target := rows[i];
      if target.start <= now { return Some(Immutable); }
      var j := Find(rows, EndsAt(target.start));
      if j < |rows| { rows := rows[j := rows[j].(end := None)]; }
      rows := rows[..i] + rows[i + 1..];
      if !Legal(rows) {
        rows := before;
        return Some(ConstraintViolated);
      }
      error := None;
    }
  }

  datatype PriceList = PriceList(active: bool, rows: seq<Price>)

  /** The price of a list that may answer: it exists and is active. */
  function ListPrice(lists: map<nat, PriceList>, list: nat, t: int): Option<int> {
    if list in lists && lists[list].active then Lookup(lists[list].rows, t) else None
  }

  /**
   The asked list answers first and the company's default list second, asked once when they are the
   same; a missing list or an inactive unit has no price.
   */
  method Resolve(lists: map<nat, PriceList>, list: nat, default_: nat, unitActive: bool, at: int)
    returns (r: Option<int>)
    ensures list !in lists || !unitActive ==> r == None
    ensures list in lists && unitActive ==>
              var own := if lists[list].active then Lookup(lists[list].rows, at) else None;
              var fallback := if default_ in lists && lists[default_].active
                              then Lookup(lists[default_].rows, at) else None;
              r == if own.Some? then own else fallback
  {
    if list !in lists || !unitActive { return None; }
    var asked := if list == default_ then [list] else [list, default_];
    for k := 0 to |asked|
      invariant forall m :: 0 <= m < k ==> ListPrice(lists, asked[m], at) == None
    {
      if asked[k] in lists && lists[asked[k]].active {
        var value := Lookup(lists[asked[k]].rows, at);
        assert k > 0 ==> ListPrice(lists, asked[0], at) == None && asked[k] == default_;
        if value.Some? { return value; }
      }
    }
    assert asked[|asked| - 1] == default_ && asked[0] == list;
    r := None;
  }

  // ---------------------------------------------------------------- the invariant

  /** The rows tile [first start, oo) in order, without gap or overlap. */
  ghost predicate Tiled(rows: seq<Price>) {
    && (forall i :: 0 <= i < |rows| ==> rows[i].value > 0)
    && (forall i :: 0 <= i < |rows| - 1 ==> rows[i].end == Some(rows[i + 1].start))
    && (forall i, j :: 0 <= i < j < |rows| ==> rows[i].start < rows[j].start && rows[i].id != rows[j].id)
    && (rows != [] ==> rows[|rows| - 1].end == None)
  }

  /** At most the last price lies in the future. */
  ghost predicate OneFuture(rows: seq<Price>, now: int) {
    forall i :: 0 <= i < |rows| - 1 ==> rows[i].start <= now
  }

  ghost predicate Inv(rows: seq<Price>, now: int) { Tiled(rows) && OneFuture(rows, now) }

  /** What a step function means: the last price that has started. */
  function StepValue(rows: seq<Price>, t: int): Option<int> {
    if rows == [] then None
    else if rows[|rows| - 1].start <= t then Some(rows[|rows| - 1].value)
    else StepValue(rows[..|rows| - 1], t)
  }

  /** `StepValue` reads the last row that has started. */
  lemma {:induction false} StepAt(rows: seq<Price>, t: int, i: nat)
    requires i < |rows| && rows[i].start <= t && forall k :: i < k < |rows| ==> rows[k].start > t
    ensures StepValue(rows, t) == Some(rows[i].value)
  {
    if i < |rows| - 1 { StepAt(rows[..|rows| - 1], t, i); }
  }

  lemma {:induction false} StepNone(rows: seq<Price>, t: int)
    requires forall k :: 0 <= k < |rows| ==> rows[k].start > t
    ensures StepValue(rows, t) == None
  {
    if rows != [] { StepNone(rows[..|rows| - 1], t); }
  }

  lemma FindOnly(rows: seq<Price>, p: Price -> bool, i: nat)
    requires i < |rows| && p(rows[i]) && forall k :: 0 <= k < |rows| && k != i ==> !p(rows[k])
    ensures Find(rows, p) == i
  {
  }

  /** The lookup of a tiled list is its step function. */
  lemma LookupIsStep(rows: seq<Price>, t: int)
    requires Tiled(rows)
    ensures Lookup(rows, t) == StepValue(rows, t)
  {
    hide Find;
    var i := Find(rows, Covers(t));
    if i < |rows| {
      forall k | i < k < |rows| ensures rows[k].start > t {
        assert rows[i].end == Some(rows[i + 1].start);
      }
      StepAt(rows, t, i);
    } else {
      NoneCovers(rows, t);
      StepNone(rows, t);
    }
  }

  lemma {:induction false} NoneCovers(rows: seq<Price>, t: int)
    requires Tiled(rows) && forall k :: 0 <= k < |rows| ==> !Covers(t)(rows[k])
    ensures forall k :: 0 <= k < |rows| ==> rows[k].start > t
  {
    if rows != [] {
      var n := |rows| - 1;
      assert !Covers(t)(rows[n]) && rows[n].start > t;
      var k := n;
      while k > 0
        invariant 0 <= k <= n && forall m :: k <= m <= n ==> rows[m].start > t
      {
        k := k - 1;
        assert !Covers(t)(rows[k]) && rows[k].end == Some(rows[k + 1].start);
      }
    }
  }

  lemma TiledIsLegal(rows: seq<Price>)
    requires Tiled(rows)
    ensures Legal(rows)
  {
    forall i, j | 0 <= i < j < |rows| ensures !Overlap(rows[i], rows[j]) {
      assert rows[i].end == Some(rows[i + 1].start);
      assert i + 1 < j ==> rows[i + 1].start < rows[j].start;
    }
    forall i | 0 <= i < |rows| ensures rows[i].end == None || rows[i].end.value > rows[i].start {
      if i < |rows| - 1 { assert rows[i].start < rows[i + 1].start; }
    }
  }

  /** The current price is the last row. */
  lemma CurrentIsLast(rows: seq<Price>)
    requires Tiled(rows)
    ensures Find(rows, IsCurrent()) == if rows == [] then 0 else |rows| - 1
  {
    if rows != [] {
      forall k | 0 <= k < |rows| - 1 ensures !IsCurrent()(rows[k]) {
        assert rows[k].end == Some(rows[k + 1].start);
      }
      FindOnly(rows, IsCurrent(), |rows| - 1);
    }
  }

  // ---------------------------------------------------------------- setting

  ghost predicate FreshId(rows: seq<Price>, id: nat) { forall i :: 0 <= i < |rows| ==> rows[i].id != id }

  function Starts(validFrom: Option<int>, now: int): int { if validFrom.Some? then validFrom.value else now }

  /**
   A price is accepted exactly when list and unit are active, it is positive, and it starts neither in the
   past nor at or before the current price, which must itself have started.
   */
  lemma SetAccepted(rows: seq<Price>, id: nat, active: bool, value: int, validFrom: Option<int>, now: int)
    requires Inv(rows, now) && FreshId(rows, id)
    ensures SetPrice(rows, id, active, value, validFrom, now).Ok?
       <==> active && value > 0 && Starts(validFrom, now) >= now
            && (rows != [] ==> rows[|rows| - 1].start <= now && rows[|rows| - 1].start < Starts(validFrom, now))
    ensures SetPrice(rows, id, active, value, validFrom, now).Ok? ==>
              && Inv(SetPrice(rows, id, active, value, validFrom, now).value, now)
              && SetPrice(rows, id, active, value, validFrom, now).value
                 == Appended(rows, |rows| - (if rows == [] then 0 else 1),
                             Price(id, value, Starts(validFrom, now), None))
  {
    hide Find, Legal;
    CurrentIsLast(rows);
    var starts := Starts(validFrom, now);
    var n := |rows| - (if rows == [] then 0 else 1);
    var written := Appended(rows, n, Price(id, value, starts, None));
    if value > 0 && (rows != [] ==> rows[n].start < starts) {
      assert Tiled(written);
      TiledIsLegal(written);
    } else {
      LegalMeans(written);
      assert written[|written| - 1].value == value;
      assert rows != [] ==> written[n].start == rows[n].start && written[n].end == Some(starts);
    }
  }

  /** Why a price is refused, in this order: inactive, past, a current price yet to start, a broken constraint. */
  lemma SetRefusals(rows: seq<Price>, id: nat, active: bool, value: int, validFrom: Option<int>, now: int)
    requires Inv(rows, now) && FreshId(rows, id)
    ensures var r := SetPrice(rows, id, active, value, validFrom, now);
            var starts := if validFrom.Some? then validFrom.value else now;
            && (r == Err(Inactive) <==> !active)
            && (r == Err(PastStart) <==> active && validFrom.Some? && validFrom.value < now)
            && (r == Err(CancelFutureFirst) <==>
                  active && starts >= now && rows != [] && rows[|rows| - 1].start > now)
            && (r == Err(ConstraintViolated) <==>
                  active && starts >= now && (rows != [] ==> rows[|rows| - 1].start <= now)
                  && (value <= 0 || (rows != [] && starts <= rows[|rows| - 1].start)))
  {
    hide Find, Legal;
    SetAccepted(rows, id, active, value, validFrom, now);
    CurrentIsLast(rows);
  }

  lemma LegalMeans(rows: seq<Price>)
    ensures Legal(rows) ==> forall i :: 0 <= i < |rows| ==>
        rows[i].value > 0 && (rows[i].end == None || rows[i].end.value > rows[i].start)
  {
  }

  /** A set price changes the lookups from its start on, and no other. */
  lemma SetChangesOnlyLater(rows: seq<Price>, id: nat, active: bool, value: int,
                            validFrom: Option<int>, now: int, t: int)
    requires Inv(rows, now) && FreshId(rows, id) && SetPrice(rows, id, active, value, validFrom, now).Ok?
    ensures Lookup(SetPrice(rows, id, active, value, validFrom, now).value, t)
         == if t >= Starts(validFrom, now) then Some(value) else Lookup(rows, t)
  {
    hide Find, Legal, Lookup, SetPrice;
    SetAccepted(rows, id, active, value, validFrom, now);
    var written := SetPrice(rows, id, active, value, validFrom, now).value;
    LookupIsStep(written, t);
    LookupIsStep(rows, t);
    SameSteps(written[..|rows|], rows, t);
  }

  lemma {:induction false} SameSteps(rows: seq<Price>, other: seq<Price>, t: int)
    requires |rows| == |other|
    requires forall i :: 0 <= i < |rows| ==> rows[i].start == other[i].start && rows[i].value == other[i].value
    ensures StepValue(rows, t) == StepValue(other, t)
  {
    if rows != [] { SameSteps(rows[..|rows| - 1], other[..|rows| - 1], t); }
  }

  // ---------------------------------------------------------------- cancelling

  /** Only the last price can be cancelled; the one before it becomes current again. */
  function Shortened(rows: seq<Price>): seq<Price>
    requires rows != []
  {
    var n := |rows| - 1;
    if n == 0 then [] else rows[..n][n - 1 := rows[n - 1].(end := None)]
  }

  /** A price is cancelled exactly when it exists and has not started; it is then the last one. */
  lemma CancelAccepted(rows: seq<Price>, id: nat, now: int)
    requires Inv(rows, now)
    ensures CancelPrice(rows, id, now).Ok? <==> rows != [] && rows[|rows| - 1].id == id && rows[|rows| - 1].start > now
    ensures CancelPrice(rows, id, now).Ok? ==>
              CancelPrice(rows, id, now).value == Shortened(rows) && Inv(Shortened(rows), now)
  {
    hide Find, Legal;
    var i := Find(rows, HasId(id));
    if i < |rows| && rows[i].start > now {
      var n := |rows| - 1;
      assert i == n;
      LastReopens(rows);
      assert Tiled(Shortened(rows));
      TiledIsLegal(Shortened(rows));
    } else if rows != [] && rows[|rows| - 1].id == id {
      FindOnly(rows, HasId(id), |rows| - 1);
    }
  }

  /** Why a price is not cancelled: there is none, or it has started. */
  lemma CancelRefusals(rows: seq<Price>, id: nat, now: int)
    requires Inv(rows, now)
    ensures var r := CancelPrice(rows, id, now);
            && (r == Err(NotFound) <==> forall i :: 0 <= i < |rows| ==> rows[i].id != id)
            && (r == Err(Immutable) <==> exists i :: 0 <= i < |rows| && rows[i].id == id && rows[i].start <= now)
            && r != Err(ConstraintViolated)
  {
    hide Find, Legal;
    CancelAccepted(rows, id, now);
    var i := Find(rows, HasId(id));
    forall k | 0 <= k < |rows| ensures rows[k].id == id <==> HasId(id)(rows[k]) { }
    if i < |rows| {
      forall k | 0 <= k < |rows| && rows[k].id == id ensures k == i { }
    }
  }

  lemma LastReopens(rows: seq<Price>)
    requires Tiled(rows) && rows != []
    ensures Reopened(rows, |rows| - 1) == Shortened(rows)
  {
    hide Find;
    var n := |rows| - 1;
    if n > 0 {
      forall k | 0 <= k < |rows| && k != n - 1 ensures !EndsAt(rows[n].start)(rows[k]) {
        if k < n - 1 { assert rows[k].end == Some(rows[k + 1].start) && rows[k + 1].start < rows[n].start; }
      }
      FindOnly(rows, EndsAt(rows[n].start), n - 1);
    } else {
      assert rows[0].end == None;
    }
  }

  /** Cancelling a price before it starts restores the timeline that setting it found, exactly. */
  lemma CancelRestores(rows: seq<Price>, id: nat, active: bool, value: int,
                       validFrom: Option<int>, now: int, later: int)
    requires Inv(rows, now) && FreshId(rows, id) && SetPrice(rows, id, active, value, validFrom, now).Ok?
    requires now <= later < Starts(validFrom, now)
    ensures CancelPrice(SetPrice(rows, id, active, value, validFrom, now).value, id, later) == Ok(rows)
  {
    hide Find, Legal, SetPrice, CancelPrice;
    SetAccepted(rows, id, active, value, validFrom, now);
    var written := SetPrice(rows, id, active, value, validFrom, now).value;
    CancelAccepted(written, id, later);
    assert Shortened(written) == rows;
  }

  /** Cancelling changes no lookup before the cancelled start; from it on the earlier price holds. */
  lemma CancelChangesOnlyLater(rows: seq<Price>, id: nat, now: int, t: int)
    requires Inv(rows, now) && CancelPrice(rows, id, now).Ok?
    ensures var start := rows[|rows| - 1].start;
            Lookup(CancelPrice(rows, id, now).value, t) == Lookup(rows, Min(t, start - 1))
  {
    hide Find, Legal, Lookup, CancelPrice;
    CancelAccepted(rows, id, now);
    var n := |rows| - 1;
    var u := Min(t, rows[n].start - 1);
    LookupIsStep(rows, u);
    LookupIsStep(Shortened(rows), t);
    SameSteps(Shortened(rows), rows[..n], t);
    if t > u && n > 0 {
      assert rows[n - 1].start < rows[n].start;
      assert rows[..n][n - 1] == rows[n - 1];
    }
  }

  // ---------------------------------------------------------------- histories

  datatype Event =
    | DoSet(active: bool, value: int, validFrom: Option<int>)
    | DoCancel(id: nat)
    | Elapse(seconds: nat)

  datatype State = State(rows: seq<Price>, now: int, nextId: nat)

  function Kept(rows: seq<Price>, r: Result<seq<Price>, Error>): seq<Price> { if r.Ok? then r.value else rows }

  function Next(s: State, e: Event): State {
    match e
    case DoSet(active, value, validFrom) =>
      s.(rows := Kept(s.rows, SetPrice(s.rows, s.nextId, active, value, validFrom, s.now)), nextId := s.nextId + 1)
    case DoCancel(id) => s.(rows := Kept(s.rows, CancelPrice(s.rows, id, s.now)))
    case Elapse(seconds) => s.(now := s.now + seconds)
  }

  function Run(s: State, events: seq<Event>): State {
    if events == [] then s else Next(Run(s, events[..|events| - 1]), events[|events| - 1])
  }

  ghost predicate Good(s: State) { Inv(s.rows, s.now) && forall i :: 0 <= i < |s.rows| ==> s.rows[i].id < s.nextId }

  lemma NextKeeps(s: State, e: Event, t: int)
    requires Good(s)
    ensures Good(Next(s, e)) && Next(s, e).now >= s.now
    ensures t < s.now ==> Lookup(Next(s, e).rows, t) == Lookup(s.rows, t)
  {
    hide Find, Legal, Lookup, SetPrice, CancelPrice;
    match e
    case DoSet(active, value, validFrom) =>
      SetAccepted(s.rows, s.nextId, active, value, validFrom, s.now);
      if SetPrice(s.rows, s.nextId, active, value, validFrom, s.now).Ok? {
        SetChangesOnlyLater(s.rows, s.nextId, active, value, validFrom, s.now, t);
      }
    case DoCancel(id) =>
      CancelAccepted(s.rows, id, s.now);
      if CancelPrice(s.rows, id, s.now).Ok? { CancelChangesOnlyLater(s.rows, id, s.now, t); }
    case Elapse(_) =>
  }

  /**
   Over any history the list stays tiled with at most one future start, and nothing that happens from
   an instant on changes what the list answered for any earlier one.
   */
  lemma {:induction false} ThePastIsFixed(s: State, events: seq<Event>, t: int)
    requires Good(s)
    ensures Good(Run(s, events)) && Run(s, events).now >= s.now
    ensures t < s.now ==> Lookup(Run(s, events).rows, t) == Lookup(s.rows, t)
  {
    hide Good, Next, Lookup;
    if events != [] {
      ThePastIsFixed(s, events[..|events| - 1], t);
      NextKeeps(Run(s, events[..|events| - 1]), events[|events| - 1], t);
    }
  }
}
