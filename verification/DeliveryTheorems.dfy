/** What deliveries, runs and handover codes promise in every reachable state. */
module DeliveryTheorems {
  import opened Seqs
  import opened Deliveries
  import opened DeliveryProofs

  // ---------------------------------------------------------------- runs

  /** In every reachable state the stops of a run fit the run, and a planned delivery fits none. */
  lemma RunsAreConsistent(ops: seq<Op>, i: nat)
    requires i < |Days(ops).deliveries|
    ensures var s := Days(ops);
            var d := s.deliveries[i];
            && (d.status == Planned ==> d.courier == None && d.run == None && d.stop == None)
            && (d.run.Some? ==>
                  && d.run.value < |s.runs|
                  && d.courier == Some(s.runs[d.run.value].courier)
                  && (s.runs[d.run.value].status == Started ==> d.status !in {Planned, Assigned})
                  && (s.runs[d.run.value].status == Finished ==> d.status in {Delivered, Failed})
                  && s.runs[d.run.value].status != Dropped)
            && (forall j :: 0 <= j < |s.deliveries| && j != i && d.run.Some? && s.deliveries[j].run == d.run ==>
                  s.deliveries[j].stop != d.stop)
  {
    hide Days, OrdersOk, TicketsOk, PathOk, CodeOk, VersionOk;
    DaysKeep(ops);
    var s := Days(ops);
    assert RowOk(s.deliveries[i]) && RunOk(s.deliveries[i], s.runs);
  }

  lemma {:induction false} FirstPlaceErrorIs(ds: seq<Delivery>, run: nat, courier: nat, ids: seq<nat>)
    ensures FirstPlaceError(ds, run, courier, ids) == None
       <==> forall k :: 0 <= k < |ids| ==> PlaceError(ds, run, courier, ids[k]) == None
  {
    hide PlaceError;
    if ids != [] { FirstPlaceErrorIs(ds, run, courier, ids[..|ids| - 1]); }
  }

  /** Planned, or assigned to the courier, and on no run but `r`. */
  predicate MayStand(s: Depot, r: nat, courier: nat, i: nat) {
    && i < |s.deliveries|
    && (s.deliveries[i].status == Planned
        || (s.deliveries[i].status == Assigned && s.deliveries[i].courier == Some(courier)))
    && (s.deliveries[i].run == None || s.deliveries[i].run == Some(r))
  }

  /** A delivery that may stand on the list of run `r`. */
  ghost predicate Placeable(s: Depot, r: nat, i: nat)
    requires r < |s.runs|
  {
    MayStand(s, r, s.runs[r].courier, i)
  }

  /** A stop list is accepted exactly when it repeats nothing and each of its deliveries may stand on it. */
  lemma StopListAccepted(s: Depot, r: nat, ids: seq<nat>)
    requires Inv(s) && r < |s.runs| && s.runs[r].status == Draft
    ensures SetStops(s, r, ids).Ok? <==> Distinct(ids) && forall k :: 0 <= k < |ids| ==> Placeable(s, r, ids[k])
  {
    hide RowOk, DropRow, OrdersOk, TicketsOk, StopsOk;
    var ds := DropOthers(s.deliveries, r, ids);
    FirstPlaceErrorIs(ds, r, s.runs[r].courier, ids);
    forall k | 0 <= k < |ids|
      ensures PlaceError(ds, r, s.runs[r].courier, ids[k]) == None <==> Placeable(s, r, ids[k])
    {
    }
  }

  /**
   After it the run holds exactly the given deliveries, in order, at places 1..n, assigned to its
   courier; its stop query gives the list back; what it dropped is off the run, and nothing else moved.
   */
  lemma StopListExact(s: Depot, r: nat, ids: seq<nat>)
    requires Inv(s) && r < |s.runs| && s.runs[r].status == Draft && SetStops(s, r, ids).Ok?
    ensures var es := SetStops(s, r, ids).value.deliveries;
            && |es| == |s.deliveries|
            && (forall k :: 0 <= k < |ids| ==>
                  && ids[k] < |es| && es[ids[k]].run == Some(r) && es[ids[k]].stop == Some(k + 1)
                  && es[ids[k]].status == Assigned && es[ids[k]].courier == Some(s.runs[r].courier))
            && (forall i :: 0 <= i < |es| && es[i].run == Some(r) ==> i in ids)
            && (forall i :: 0 <= i < |es| && i !in ids && s.deliveries[i].run != Some(r) ==> es[i] == s.deliveries[i])
            && RunStops(es, r) == ids
  {
    hide Inv, PlaceError, FirstPlaceError, PlaceAll, DropOthers, RunStops;
    var dropped := s.(deliveries := DropOthers(s.deliveries, r, ids));
    DropKeeps(s, r, ids);
    AllPlaceable(dropped.deliveries, r, s.runs[r].courier, ids);
    PlaceKeeps(dropped, r, ids);
    var es := PlaceAll(dropped.deliveries, r, s.runs[r].courier, ids);
    DropLeaves(s.deliveries, r, ids);
    forall k | 0 <= k < |ids|
      ensures ids[k] < |es| && es[ids[k]].run == Some(r) && es[ids[k]].stop == Some(k + 1)
      ensures es[ids[k]].status == Assigned && es[ids[k]].courier == Some(s.runs[r].courier)
    {
      StopAt(dropped, r, ids, es, k);
    }
    StopQuery(es, r, ids);
  }

  lemma DropLeaves(ds: seq<Delivery>, r: nat, ids: seq<nat>)
    ensures var es := DropOthers(ds, r, ids);
            && |es| == |ds|
            && forall i :: 0 <= i < |es| && i !in ids && ds[i].run != Some(r) ==> es[i] == ds[i]
  {
  }

  lemma PositionAt(ids: seq<nat>, k: nat)
    requires Distinct(ids) && k < |ids|
    ensures Position(ids, ids[k]) == k + 1
  {
  }

  lemma StopAt(s: Depot, r: nat, ids: seq<nat>, es: seq<Delivery>, k: nat)
    requires Inv(s) && r < |s.runs| && s.runs[r].status == Draft && Distinct(ids) && k < |ids|
    requires forall i :: 0 <= i < |s.deliveries| && s.deliveries[i].run == Some(r) ==> i in ids
    requires forall j :: 0 <= j < |ids| ==> PlaceError(s.deliveries, r, s.runs[r].courier, ids[j]) == None
    requires es == PlaceAll(s.deliveries, r, s.runs[r].courier, ids)
    ensures ids[k] < |es| && es[ids[k]].run == Some(r) && es[ids[k]].stop == Some(k + 1)
    ensures es[ids[k]].status == Assigned && es[ids[k]].courier == Some(s.runs[r].courier)
  {
    hide RowOk, OrdersOk, TicketsOk, StopsOk, PlaceRow, Position;
    assert PlaceError(s.deliveries, r, s.runs[r].courier, ids[k]) == None;
    PositionAt(ids, k);
    PlacedRow(s.deliveries[ids[k]], r, s.runs[r].courier, k + 1, s.runs);
  }

  ghost predicate InPlaces(es: seq<Delivery>, r: nat, ids: seq<nat>) {
    && (forall k :: 0 <= k < |ids| ==> ids[k] < |es| && es[ids[k]].run == Some(r) && es[ids[k]].stop == Some(k + 1))
    && (forall i :: 0 <= i < |es| && es[i].run == Some(r) ==> i in ids)
  }

  lemma SameMembers(s: seq<nat>, t: seq<nat>)
    requires DistinctBy(s, Self()) && DistinctBy(t, Self()) && forall x :: x in s <==> x in t
    ensures multiset(s) == multiset(t)
  {
    forall x: nat ensures multiset(s)[x] == multiset(t)[x] {
      OnceInDistinct(s, Self(), x);
      OnceInDistinct(t, Self(), x);
      assert x in multiset(s) <==> x in s;
      assert x in multiset(t) <==> x in t;
    }
  }

  lemma FoundIsPermutation(es: seq<Delivery>, r: nat, ids: seq<nat>)
    requires Distinct(ids) && InPlaces(es, r, ids)
    ensures multiset(Filter(Ids(|es|), OnRun(es, r))) == multiset(ids)
  {
    hide Filter;
    var found := Filter(Ids(|es|), OnRun(es, r));
    FilterDistinct(Ids(|es|), OnRun(es, r), Self());
    forall x: nat ensures x in found <==> x in ids {
      assert x < |es| ==> Ids(|es|)[x] == x;
    }
    SameMembers(found, ids);
  }

  lemma PlaceOrder(es: seq<Delivery>)
    ensures StrictWeak(StopBefore(es))
  {
  }

  lemma SortedByPlace(es: seq<Delivery>, r: nat, ids: seq<nat>)
    requires InPlaces(es, r, ids)
    ensures Sorted(ids, StopBefore(es))
    ensures forall i, j :: i in ids && j in ids && i != j ==> StopBefore(es)(i, j) || StopBefore(es)(j, i)
  {
  }

  /** Sorting the run's stops by place lists them as they were given. */
  lemma StopQuery(es: seq<Delivery>, r: nat, ids: seq<nat>)
    requires Distinct(ids) && InPlaces(es, r, ids)
    ensures RunStops(es, r) == ids
  {
    hide Sort, Filter, InPlaces, StopBefore, Sorted;
    var found := Filter(Ids(|es|), OnRun(es, r));
    var less := StopBefore(es);
    FoundIsPermutation(es, r, ids);
    PlaceOrder(es);
    SortSorted(found, less);
    SortedByPlace(es, r, ids);
    InMultiset(Sort(found, less), ids);
    SortedUnique(Sort(found, less), ids, less);
  }

  // ---------------------------------------------------------------- histories

  /**
   Every history is a path along the table's edges from `PLANNED` to the current status, through the
   writers that check the table and those that do not; the version counts it and the regenerations.
   */
  lemma HistoryIsAPath(ops: seq<Op>, i: nat)
    requires i < |Days(ops).deliveries|
    ensures var d := Days(ops).deliveries[i];
            && PathOk(d.history, d.status)
            && d.version == |d.history| + Regenerations(d.log)
  {
    hide Days, OrdersOk, TicketsOk, StopsOk, PathOk;
    DaysKeep(ops);
    assert RowOk(Days(ops).deliveries[i]);
  }

  /** The attempts of an order are numbered 1..n, and only the n-th may still be open. */
  lemma AttemptsAreNumbered(ops: seq<Op>, order: nat)
    ensures var ds := Days(ops).deliveries;
            var n := MaxAttempt(ds, order);
            && (forall k :: 1 <= k <= n ==> HasAttempt(ds, order, k))
            && (forall i :: 0 <= i < |ds| && ds[i].order == order ==>
                  1 <= ds[i].attemptNo <= n && (IsOpen(ds[i].status) ==> ds[i].attemptNo == n))
            && (forall i, j :: 0 <= i < j < |ds| && ds[i].order == order && ds[j].order == order ==>
                  ds[i].attemptNo != ds[j].attemptNo)
  {
    hide Days, RowsOk, TicketsOk, StopsOk, IsOpen, MaxAttempt;
    DaysKeep(ops);
    var ds := Days(ops).deliveries;
    var n := MaxAttempt(ds, order);
    MaxAttemptIs(ds, order);
    AllAttempts(ds, order, n);
    if n > 0 { var m :| 0 <= m < |ds| && ds[m].order == order && ds[m].attemptNo == n; }
  }

  lemma {:induction false} AllAttempts(ds: seq<Delivery>, order: nat, n: nat)
    requires OrdersOk(ds) && (n > 0 ==> HasAttempt(ds, order, n))
    ensures forall k :: 1 <= k <= n ==> HasAttempt(ds, order, k)
  {
    hide OrdersOk, HasAttempt;
    if n > 1 {
      AttemptBefore(ds, order, n);
      AllAttempts(ds, order, n - 1);
    }
  }

  lemma AttemptBefore(ds: seq<Delivery>, order: nat, n: nat)
    requires OrdersOk(ds) && HasAttempt(ds, order, n) && n > 1
    ensures HasAttempt(ds, order, n - 1)
  {
  }

  /** Rows are never removed and histories never rewritten. */
  ghost predicate Longer(ds: seq<Delivery>, es: seq<Delivery>) {
    |ds| <= |es| && forall i :: 0 <= i < |ds| ==> ds[i].history <= es[i].history
  }

  lemma Longest(ds: seq<Delivery>, es: seq<Delivery>, fs: seq<Delivery>)
    requires Longer(ds, es) && Longer(es, fs)
    ensures Longer(ds, fs)
  {
  }

  lemma DropGrows(ds: seq<Delivery>, r: nat, ids: seq<nat>)
    ensures Longer(ds, DropOthers(ds, r, ids))
  {
  }

  lemma PlaceGrows(ds: seq<Delivery>, r: nat, courier: nat, ids: seq<nat>)
    ensures Longer(ds, PlaceAll(ds, r, courier, ids))
  {
  }

  lemma SetStopsGrows(s: Depot, r: nat, ids: seq<nat>)
    requires r < |s.runs| && SetStops(s, r, ids).Ok?
    ensures Longer(s.deliveries, SetStops(s, r, ids).value.deliveries)
  {
    hide FirstPlaceError, PlaceAll, DropOthers, Distinct, Longer;
    var ds := DropOthers(s.deliveries, r, ids);
    DropGrows(s.deliveries, r, ids);
    PlaceGrows(ds, r, s.runs[r].courier, ids);
    Longest(s.deliveries, ds, PlaceAll(ds, r, s.runs[r].courier, ids));
  }

  lemma StartGrows(s: Depot, a: Actor, r: nat, codes: nat -> int, refused: set<nat>)
    requires r < |s.runs| && StartRun(s, a, r, codes, refused).Ok?
    ensures Longer(s.deliveries, StartRun(s, a, r, codes, refused).value.deliveries)
  {
  }

  lemma Longer1(ds: seq<Delivery>, i: nat, e: Delivery)
    requires i < |ds| && ds[i].history <= e.history
    ensures Longer(ds, ds[i := e])
  {
  }

  lemma RowOpGrows(s: Depot, op: Op)
    requires op.OpAssign? || op.OpUnassign? || op.OpCancel? || op.OpDispatch? || op.OpArrive?
             || op.OpManual? || op.OpFail? || op.OpRegenerate?
    ensures Longer(s.deliveries, Step(s, op).deliveries)
  {
    hide Longer, MayAct, Sources, OnTheRoad;
    var t := Step(s, op);
    Same(s.deliveries);
    if op.row < |s.deliveries| && t != s {
      assert t.deliveries == s.deliveries[op.row := t.deliveries[op.row]];
      Longer1(s.deliveries, op.row, t.deliveries[op.row]);
    }
  }

  lemma Same(ds: seq<Delivery>)
    ensures Longer(ds, ds)
  {
  }

  lemma StepGrows(s: Depot, op: Op)
    ensures Longer(s.deliveries, Step(s, op).deliveries)
  {
    hide SetStops, StartRun, LiveRow, MaxAttempt, HasOpen, MayAct, Sources, IsOpen;
    match op
    case OpPlan(_) =>
    case OpCancelForOrder(_) =>
    case OpSpend(_, _, _) =>
    case OpConfirm(_, _) =>
    case OpCreateRun(courier, eligible, ids) =>
      if CreateRun(s, courier, eligible, ids).Ok? {
        SetStopsGrows(s.(runs := s.runs + [Run(courier, Draft, 1)]), |s.runs|, ids);
      }
    case OpUpdateRun(r, ids, expected) =>
      if r < |s.runs| && UpdateRun(s, r, ids, expected).Ok? { SetStopsGrows(s, r, ids); }
    case OpStart(a, r, codes, refused) =>
      if r < |s.runs| && StartRun(s, a, r, codes, refused).Ok? { StartGrows(s, a, r, codes, refused); }
    case OpFinish(_, _) =>
    case OpCancelRun(_) =>
    case _ => RowOpGrows(s, op);
  }

  lemma {:induction false} DaysGrow(ops: seq<Op>, more: seq<Op>)
    ensures Longer(Days(ops).deliveries, Days(ops + more).deliveries)
  {
    hide Step;
    if more == [] {
      assert ops + more == ops;
    } else {
      var all := ops + more;
      assert all[..|all| - 1] == ops + more[..|more| - 1];
      DaysGrow(ops, more[..|more| - 1]);
      StepGrows(Days(ops + more[..|more| - 1]), more[|more| - 1]);
    }
  }

  lemma NoEdgeFrom(x: Status, y: Status)
    requires !IsOpen(x)
    ensures !Edge(x, y)
  {
  }

  /** A delivery that ended stays ended, whatever happens next. */
  lemma EndedIsFinal(ops: seq<Op>, more: seq<Op>, i: nat)
    requires i < |Days(ops).deliveries| && !IsOpen(Days(ops).deliveries[i].status)
    ensures i < |Days(ops + more).deliveries|
    ensures Days(ops + more).deliveries[i].history == Days(ops).deliveries[i].history
    ensures Days(ops + more).deliveries[i].status == Days(ops).deliveries[i].status
  {
    hide Days;
    DaysGrow(ops, more);
    HistoryIsAPath(ops, i);
    HistoryIsAPath(ops + more, i);
    var h, g := Days(ops).deliveries[i].history, Days(ops + more).deliveries[i].history;
    if |g| > |h| {
      assert Edge(g[|h| - 1].to, g[|h|].to);
      NoEdgeFrom(h[|h| - 1].to, g[|h|].to);
    }
  }

  // ---------------------------------------------------------------- codes

  /** The counter is exact in every interleaving: wrong codes since the last minting, never above five. */
  lemma AttemptsAreCounted(ops: seq<Op>, i: nat)
    requires i < |Days(ops).deliveries|
    ensures var d := Days(ops).deliveries[i];
            && d.codeAttempts == Rejections(d.log) <= MAX_ATTEMPTS
            && (d.codeLocked <==> d.codeAttempts == MAX_ATTEMPTS)
            && d.code == InForce(d.log)
            && (d.confirmation == Some(ByCode) ==> d.status == Delivered && !d.codeLocked)
  {
    hide Days, OrdersOk, TicketsOk, StopsOk, PathOk;
    DaysKeep(ops);
    assert RowOk(Days(ops).deliveries[i]);
  }

  /** A first transaction reports a wrong code exactly when it has counted one. */
  lemma SpentIsCounted(s: Depot, a: Actor, i: nat, code: int)
    requires i < |s.deliveries| && MayAct(a, s.deliveries[i]) == None
    requires OnTheRoad(s.deliveries[i].status) && !s.deliveries[i].codeLocked
    ensures var (t, e) := SpendAttempt(s, a, i, code);
            if s.deliveries[i].code == Some(code) then e == None && t.deliveries == s.deliveries
            else
              && e == Some(if s.deliveries[i].codeAttempts + 1 >= MAX_ATTEMPTS then CodeIsLocked else CodeIsInvalid)
              && t.deliveries[i].codeAttempts == s.deliveries[i].codeAttempts + 1
              && Rejections(t.deliveries[i].log) == Rejections(s.deliveries[i].log) + 1
  {
  }

  /** Since `seen` a code was minted, and the last one minted since is not `code`. */
  ghost predicate Recoded(log: seq<CodeEvent>, seen: nat, code: int) {
    exists k :: seen <= k < |log| && log[k].Minted? && log[k].code != code && Quiet(log, k + 1)
  }

  lemma {:induction false} LastMinting(log: seq<CodeEvent>, seen: nat) returns (k: nat)
    requires seen <= |log| && !Quiet(log, seen)
    ensures seen <= k < |log| && log[k].Minted? && Quiet(log, k + 1)
  {
    k := |log| - 1;
    if !log[k].Minted? {
      var rest := log[..k];
      var j :| seen <= j < |log| && !log[j].WrongCode?;
      assert rest[j] == log[j];
      k := LastMinting(rest, seen);
      assert forall i :: k < i < |log| - 1 ==> log[i] == rest[i];
    }
  }

  lemma {:induction false} LastMintingIsInForce(log: seq<CodeEvent>, k: nat)
    requires k < |log| && log[k].Minted? && Quiet(log, k + 1)
    ensures InForce(log) == Some(log[k].code)
  {
    if k < |log| - 1 {
      assert log[|log| - 1].WrongCode?;
      LastMintingIsInForce(log[..|log| - 1], k);
    }
  }

  /** The code in force is not the ticket's exactly when the delivery was re-coded since. */
  lemma StaleExactlyWhenRecoded(t: Ticket, ds: seq<Delivery>)
    requires TicketOk(t, ds)
    ensures InForce(ds[t.row].log) != Some(t.code) <==> Recoded(ds[t.row].log, t.seen, t.code)
  {
    var log := ds[t.row].log;
    if !Quiet(log, t.seen) {
      var k := LastMinting(log, t.seen);
      LastMintingIsInForce(log, k);
    }
    forall k | t.seen <= k < |log| && log[k].Minted? && log[k].code != t.code && Quiet(log, k + 1)
      ensures InForce(log) != Some(t.code)
    {
      LastMintingIsInForce(log, k);
    }
  }

  /**
   The second transaction delivers by code exactly when the delivery is still on the road, unlocked, its
   code the ticket's, the actor still allowed and the order service willing.
   */
  lemma ConfirmNeedsTheCodeInForce(ops: seq<Op>, t: Ticket, accepted: bool)
    requires t in Days(ops).tickets && t.row < |Days(ops).deliveries|
    ensures var s := Days(ops);
            var d := s.deliveries[t.row];
            && (Confirm(s, t, accepted).Ok? <==>
                  MayAct(t.actor, d) == None && OnTheRoad(d.status) && !d.codeLocked
                  && InForce(d.log) == Some(t.code) && accepted)
            && (Confirm(s, t, accepted).Ok? ==>
                  var e := Confirm(s, t, accepted).value.deliveries[t.row];
                  e.status == Delivered && e.confirmation == Some(ByCode) && e.log == d.log)
  {
    hide Days, OrdersOk, StopsOk, PathOk;
    DaysKeep(ops);
    assert RowOk(Days(ops).deliveries[t.row]);
  }

  /**
   Not every wrong code is counted. The second transaction calls a code wrong exactly when a code was minted
   after the first one saw it right, the last such minting is another code, and the delivery can still be
   confirmed; it then leaves every row as it was, the attempt counter included.
   */
  lemma LateRefusalIsNotCounted(ops: seq<Op>, k: nat, accepted: bool)
    requires k < |Days(ops).tickets| && Days(ops).tickets[k].row < |Days(ops).deliveries|
    ensures var s := Days(ops);
            var t := s.tickets[k];
            var d := s.deliveries[t.row];
            && (Confirm(s, t, accepted) == Err(CodeIsInvalid) <==>
                  MayAct(t.actor, d) == None && OnTheRoad(d.status) && !d.codeLocked && Recoded(d.log, t.seen, t.code))
            && (Confirm(s, t, accepted) == Err(CodeIsInvalid) ==> Step(s, OpConfirm(k, accepted)) == s)
  {
    hide Days, OrdersOk, StopsOk, PathOk, Recoded;
    DaysKeep(ops);
    var s := Days(ops);
    assert TicketOk(s.tickets[k], s.deliveries);
    assert RowOk(s.deliveries[s.tickets[k].row]);
    StaleExactlyWhenRecoded(s.tickets[k], s.deliveries);
  }

  /** And it happens from every state in which a code can be confirmed, once the code is changed in between. */
  lemma LateRefusalHappens(s: Depot, a: Actor, i: nat, code: int, next: int, accepted: bool)
    requires Inv(s) && i < |s.deliveries| && MayAct(a, s.deliveries[i]) == None
    requires OnTheRoad(s.deliveries[i].status) && !s.deliveries[i].codeLocked
    requires s.deliveries[i].code == Some(code) && next != code
    ensures var t := Step(Step(s, OpSpend(a, i, code)), OpRegenerate(i, next));
            && t.tickets != [] && t.tickets[|t.tickets| - 1].row == i && t.tickets[|t.tickets| - 1].code == code
            && Confirm(t, t.tickets[|t.tickets| - 1], accepted) == Err(CodeIsInvalid)
            && Step(t, OpConfirm(|t.tickets| - 1, accepted)) == t
            && t.deliveries[i].codeAttempts == 0
  {
    hide Inv;
    var u := Step(s, OpSpend(a, i, code));
    assert u == s.(tickets := s.tickets + [Ticket(a, i, code, |s.deliveries[i].log|)]);
  }
}
