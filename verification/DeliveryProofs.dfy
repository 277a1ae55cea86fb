/** What every operation on deliveries and runs keeps. */
module DeliveryProofs {
  import opened Seqs
  import opened Deliveries

  // ---------------------------------------------------------------- one row

  /** Some action leads from one status to the other. */
  ghost predicate Edge(x: Status, y: Status) { exists a: Action :: x in Sources(a) && y == Target(a) }

  /** The history is a connected path from `PLANNED`, along the table's edges, to the current status. */
  ghost predicate PathOk(h: seq<Change>, status: Status) {
    && |h| > 0 && h[0] == Change(None, Planned) && h[|h| - 1].to == status
    && (forall k :: 0 < k < |h| ==> h[k].from == Some(h[k - 1].to) && Edge(h[k - 1].to, h[k].to))
  }

  function InForce(log: seq<CodeEvent>): Option<int> {
    if log == [] then None
    else match log[|log| - 1] case Minted(code) => Some(code) case WrongCode => InForce(log[..|log| - 1])
  }

  function Rejections(log: seq<CodeEvent>): nat {
    if log == [] then 0
    else match log[|log| - 1] case Minted(_) => 0 case WrongCode => Rejections(log[..|log| - 1]) + 1
  }

  function Mints(log: seq<CodeEvent>): nat {
    if log == [] then 0
    else Mints(log[..|log| - 1]) + (if log[|log| - 1].Minted? then 1 else 0)
  }

  /** Codes minted after the one that dispatch minted. */
  function Regenerations(log: seq<CodeEvent>): nat { if Mints(log) == 0 then 0 else Mints(log) - 1 }

  predicate Coded(x: Status) { x in {InTransit, Arrived, Delivered, Failed} }

  /** The counter is the number of wrong codes since the last minting, and the fifth one locks. */
  ghost predicate CodeOk(d: Delivery) {
    && (Coded(d.status) <==> Mints(d.log) > 0)
    && d.code == InForce(d.log) && (d.code.Some? <==> Mints(d.log) > 0)
    && d.codeAttempts == Rejections(d.log) <= MAX_ATTEMPTS
    && (d.codeLocked <==> d.codeAttempts == MAX_ATTEMPTS)
    && (d.confirmation.Some? <==> d.status == Delivered)
    && (d.confirmation == Some(ByCode) ==> !d.codeLocked)
  }

  ghost predicate VersionOk(d: Delivery) { d.version == |d.history| + Regenerations(d.log) }

  ghost predicate PlaceOk(d: Delivery) {
    && (d.status == Planned ==> d.courier == None && d.run == None)
    && (d.status == Cancelled ==> d.run == None)
    && (d.status !in {Planned, Cancelled} ==> d.courier.Some?)
    && (d.run.Some? <==> d.stop.Some?)
  }

  ghost predicate RowOk(d: Delivery) { PathOk(d.history, d.status) && CodeOk(d) && VersionOk(d) && PlaceOk(d) }

  lemma LogSnoc(log: seq<CodeEvent>, e: CodeEvent)
    ensures InForce(log + [e]) == (if e.Minted? then Some(e.code) else InForce(log))
    ensures Rejections(log + [e]) == (if e.Minted? then 0 else Rejections(log) + 1)
    ensures Mints(log + [e]) == Mints(log) + (if e.Minted? then 1 else 0)
  {
  }

  // ---------------------------------------------------------------- the whole depot

  /** A stop is carried by the run's courier, and the run's status bounds the stop's. */
  ghost predicate RunOk(d: Delivery, runs: seq<Run>) {
    d.run.Some? ==>
      && d.run.value < |runs|
      && d.courier == Some(runs[d.run.value].courier)
      && (runs[d.run.value].status == Started ==> d.status != Assigned)
      && (runs[d.run.value].status == Finished ==> d.status in {Delivered, Failed})
      && runs[d.run.value].status != Dropped
  }

  ghost predicate RowsOk(ds: seq<Delivery>, runs: seq<Run>) {
    forall i :: 0 <= i < |ds| ==> RowOk(ds[i]) && RunOk(ds[i], runs)
  }

  /** No two stops of one run share a sequence number. */
  ghost predicate StopsOk(ds: seq<Delivery>) {
    forall i, j :: 0 <= i < j < |ds| && ds[i].run.Some? && ds[i].run == ds[j].run ==> ds[i].stop != ds[j].stop
  }

  /** The attempts of an order are numbered 1, 2, 3, ... and only the last may be open. */
  ghost predicate OrdersOk(ds: seq<Delivery>) {
    && (forall i :: 0 <= i < |ds| ==> ds[i].attemptNo >= 1)
    && (forall i :: 0 <= i < |ds| && ds[i].attemptNo > 1 ==> HasAttempt(ds, ds[i].order, ds[i].attemptNo - 1))
    && (forall i, j | 0 <= i < |ds| && 0 <= j < |ds| && ds[i].order == ds[j].order ::
          ds[i].attemptNo == ds[j].attemptNo ==> i == j)
    && (forall i, j | 0 <= i < |ds| && 0 <= j < |ds| && ds[i].order == ds[j].order ::
          ds[i].attemptNo < ds[j].attemptNo ==> !IsOpen(ds[i].status))
  }

  ghost predicate HasAttempt(ds: seq<Delivery>, order: nat, n: nat) {
    exists i :: 0 <= i < |ds| && ds[i].order == order && ds[i].attemptNo == n
  }

  /** Unless a code was minted since, the code of a ticket is the one in force. */
  ghost predicate Quiet(log: seq<CodeEvent>, seen: nat) { forall k :: seen <= k < |log| ==> log[k].WrongCode? }

  ghost predicate TicketOk(t: Ticket, ds: seq<Delivery>) {
    && t.row < |ds|
    && t.seen <= |ds[t.row].log|
    && (Quiet(ds[t.row].log, t.seen) ==> InForce(ds[t.row].log) == Some(t.code))
  }

  ghost predicate TicketsOk(tickets: seq<Ticket>, ds: seq<Delivery>) {
    forall k :: 0 <= k < |tickets| ==> TicketOk(tickets[k], ds)
  }

  ghost predicate Inv(s: Depot) {
    RowsOk(s.deliveries, s.runs)
    && StopsOk(s.deliveries) && OrdersOk(s.deliveries) && TicketsOk(s.tickets, s.deliveries)
  }

  /** What an operation may not change: the attempt, a closed attempt's end, the past of the code log. */
  ghost predicate Kin(d: Delivery, e: Delivery) {
    && e.order == d.order && e.attemptNo == d.attemptNo
    && (IsOpen(e.status) ==> IsOpen(d.status))
    && |d.log| <= |e.log| <= |d.log| + 1 && e.log[..|d.log|] == d.log
  }

  ghost predicate AllKin(ds: seq<Delivery>, es: seq<Delivery>) {
    |ds| == |es| && forall i :: 0 <= i < |ds| ==> Kin(ds[i], es[i])
  }

  lemma KinOrders(ds: seq<Delivery>, es: seq<Delivery>)
    requires OrdersOk(ds) && AllKin(ds, es)
    ensures OrdersOk(es)
  {
  }

  lemma KinTicket(t: Ticket, ds: seq<Delivery>, es: seq<Delivery>)
    requires TicketOk(t, ds) && AllKin(ds, es)
    ensures TicketOk(t, es)
  {
    var d, e := ds[t.row], es[t.row];
    assert Kin(d, e);
    if Quiet(e.log, t.seen) {
      assert forall k :: 0 <= k < |d.log| ==> e.log[k] == d.log[k];
      if |e.log| == |d.log| {
        assert e.log == d.log;
      } else {
        assert e.log == d.log + [e.log[|d.log|]];
        LogSnoc(d.log, e.log[|d.log|]);
      }
    }
  }

  /** Rows that stay good and kin, on distinct stops, keep the depot good. */
  lemma Replaced(s: Depot, es: seq<Delivery>, runs: seq<Run>)
    requires Inv(s) && RowsOk(es, runs) && StopsOk(es) && AllKin(s.deliveries, es)
    ensures Inv(Depot(es, runs, s.tickets))
  {
    hide RowsOk, StopsOk, OrdersOk, TicketOk, Kin;
    KinOrders(s.deliveries, es);
    forall k | 0 <= k < |s.tickets| ensures TicketOk(s.tickets[k], es) { KinTicket(s.tickets[k], s.deliveries, es); }
  }

  lemma Replaced1(s: Depot, i: nat, e: Delivery)
    requires Inv(s) && i < |s.deliveries|
    requires RowOk(e) && RunOk(e, s.runs) && Kin(s.deliveries[i], e)
    requires e.run == None || (e.run == s.deliveries[i].run && e.stop == s.deliveries[i].stop)
    ensures Inv(s.(deliveries := s.deliveries[i := e]))
  {
    hide RowOk, RunOk, OrdersOk, TicketsOk, IsOpen;
    var es := s.deliveries[i := e];
    assert StopsOk(es);
    assert AllKin(s.deliveries, es) by {
      forall k | 0 <= k < |es| ensures Kin(s.deliveries[k], es[k]) { }
    }
    Replaced(s, es, s.runs);
  }

  // ---------------------------------------------------------------- single rows

  lemma MovedRow(d: Delivery, e: Delivery, a: Action)
    requires PathOk(d.history, d.status) && d.status in Sources(a)
    requires e.history == d.history && e.status == d.status && e.version - Regenerations(e.log) == |d.history|
    ensures PathOk(Moved(e, Target(a)).history, Target(a)) && VersionOk(Moved(e, Target(a)))
  {
  }

  lemma AssignRow(d: Delivery, courier: nat)
    requires RowOk(d) && d.status == Planned
    ensures RowOk(Moved(d.(courier := Some(courier)), Assigned))
  {
    MovedRow(d, d.(courier := Some(courier)), DoAssign);
  }

  lemma UnassignRow(d: Delivery)
    requires RowOk(d) && d.status == Assigned
    ensures RowOk(Moved(OffRun(d).(courier := None), Planned))
    ensures DropRow(d) == Moved(OffRun(d).(courier := None), Planned)
  {
    MovedRow(d, OffRun(d).(courier := None), DoUnassign);
  }

  lemma CancelRow(d: Delivery)
    requires RowOk(d) && d.status in Sources(DoCancel)
    ensures RowOk(Moved(OffRun(d), Cancelled))
  {
  }

  lemma DispatchedRow(d: Delivery, code: int)
    requires RowOk(d) && d.status == Assigned
    ensures RowOk(Moved(Mint(d, code), InTransit)) && Kin(d, Moved(Mint(d, code), InTransit))
  {
    hide PathOk, VersionOk, InForce, Rejections, Mints;
    LogSnoc(d.log, Minted(code));
    MintedVersion(d, code);
    MovedRow(d, Mint(d, code), DoDispatch);
  }

  lemma MintedVersion(d: Delivery, code: int)
    requires VersionOk(d) && Mints(d.log) == 0 && Mints(d.log + [Minted(code)]) == 1
    ensures d.version - Regenerations(Mint(d, code).log) == |d.history|
  {
  }

  lemma ArriveRow(d: Delivery)
    requires RowOk(d) && d.status == InTransit
    ensures RowOk(Moved(d, Arrived))
  {
    MovedRow(d, d, DoArrive);
  }

  lemma DeliverRow(d: Delivery, method_: Method)
    requires RowOk(d) && OnTheRoad(d.status) && (method_ == ByCode ==> !d.codeLocked)
    ensures RowOk(Moved(d.(confirmation := Some(method_)), Delivered))
  {
    MovedRow(d, d.(confirmation := Some(method_)), DoDeliver);
  }

  lemma FailRow(d: Delivery)
    requires RowOk(d) && OnTheRoad(d.status)
    ensures RowOk(Moved(d, Failed))
  {
    MovedRow(d, d, DoFail);
  }

  lemma RejectRow(d: Delivery)
    requires RowOk(d) && OnTheRoad(d.status) && !d.codeLocked
    ensures RowOk(Reject(d)) && Kin(d, Reject(d))
  {
  }

  lemma RecodeRow(d: Delivery, code: int)
    requires RowOk(d) && OnTheRoad(d.status)
    ensures RowOk(Mint(d, code).(version := d.version + 1)) && Kin(d, Mint(d, code).(version := d.version + 1))
  {
  }

  // ---------------------------------------------------------------- planning

  lemma {:induction false} MaxAttemptIs(ds: seq<Delivery>, order: nat)
    ensures forall i :: 0 <= i < |ds| && ds[i].order == order ==> ds[i].attemptNo <= MaxAttempt(ds, order)
    ensures MaxAttempt(ds, order) > 0 ==> HasAttempt(ds, order, MaxAttempt(ds, order))
  {
    if ds != [] {
      var rest := ds[..|ds| - 1];
      MaxAttemptIs(rest, order);
      if MaxAttempt(ds, order) == MaxAttempt(rest, order) && MaxAttempt(rest, order) > 0 {
        var i :| 0 <= i < |rest| && rest[i].order == order && rest[i].attemptNo == MaxAttempt(rest, order);
        assert ds[i].order == order;
      }
    }
  }

  lemma NextAttempt(ds: seq<Delivery>, d: Delivery)
    requires OrdersOk(ds) && d.attemptNo >= 1
    requires forall i :: 0 <= i < |ds| && ds[i].order == d.order ==>
        ds[i].attemptNo < d.attemptNo && !IsOpen(ds[i].status)
    requires d.attemptNo > 1 ==> HasAttempt(ds, d.order, d.attemptNo - 1)
    ensures OrdersOk(ds + [d])
  {
    hide IsOpen, HasAttempt;
    var es := ds + [d];
    forall i | 0 <= i < |es| && es[i].attemptNo > 1 ensures HasAttempt(es, es[i].order, es[i].attemptNo - 1) {
      HasMore(ds, d, es[i].order, es[i].attemptNo - 1);
    }
  }

  lemma HasMore(ds: seq<Delivery>, d: Delivery, order: nat, n: nat)
    requires HasAttempt(ds, order, n)
    ensures HasAttempt(ds + [d], order, n)
  {
    var j :| 0 <= j < |ds| && ds[j].order == order && ds[j].attemptNo == n;
    assert (ds + [d])[j] == ds[j];
  }

  lemma PlanOrders(ds: seq<Delivery>, order: nat)
    requires OrdersOk(ds) && !HasOpen(ds, order)
    ensures OrdersOk(ds + [NewDelivery(order, MaxAttempt(ds, order) + 1)])
  {
    hide OrdersOk, MaxAttempt, IsOpen;
    MaxAttemptIs(ds, order);
    NextAttempt(ds, NewDelivery(order, MaxAttempt(ds, order) + 1));
  }

  lemma PlanKeeps(s: Depot, order: nat)
    requires Inv(s)
    ensures Inv(PlanForOrder(s, order))
  {
    hide OrdersOk;
    if !HasOpen(s.deliveries, order) {
      PlanOrders(s.deliveries, order);
      var d := NewDelivery(order, MaxAttempt(s.deliveries, order) + 1);
      assert RowOk(d);
      forall k | 0 <= k < |s.tickets| ensures TicketOk(s.tickets[k], s.deliveries + [d]) {
        assert TicketOk(s.tickets[k], s.deliveries);
      }
    }
  }

  // ---------------------------------------------------------------- runs

  lemma DroppedRow(d: Delivery)
    requires RowOk(d) && d.run.Some?
    ensures RowOk(DropRow(d)) && Kin(d, DropRow(d)) && DropRow(d).run == None
  {
    if d.status == Assigned { UnassignRow(d); }
  }

  lemma DropKeeps(s: Depot, r: nat, ids: seq<nat>)
    requires Inv(s) && r < |s.runs|
    ensures Inv(s.(deliveries := DropOthers(s.deliveries, r, ids)))
    ensures var es := DropOthers(s.deliveries, r, ids);
            forall i :: 0 <= i < |es| && es[i].run == Some(r) ==> i in ids
  {
    hide RowOk, OrdersOk, TicketsOk, DropRow, IsOpen;
    var es := DropOthers(s.deliveries, r, ids);
    forall i | 0 <= i < |es|
      ensures RowOk(es[i]) && RunOk(es[i], s.runs) && Kin(s.deliveries[i], es[i])
      ensures es[i].run.Some? ==> es[i] == s.deliveries[i] && (es[i].run == Some(r) ==> i in ids)
    {
      if s.deliveries[i].run == Some(r) && i !in ids { DroppedRow(s.deliveries[i]); }
    }
    Replaced(s, es, s.runs);
  }

  lemma {:induction false} AllPlaceable(ds: seq<Delivery>, run: nat, courier: nat, ids: seq<nat>)
    requires FirstPlaceError(ds, run, courier, ids) == None
    ensures forall k :: 0 <= k < |ids| ==> PlaceError(ds, run, courier, ids[k]) == None
  {
    hide PlaceError;
    if ids != [] { AllPlaceable(ds, run, courier, ids[..|ids| - 1]); }
  }

  lemma PlacedRow(d: Delivery, r: nat, courier: nat, position: nat, runs: seq<Run>)
    requires RowOk(d) && d.status in {Planned, Assigned} && (d.status == Assigned ==> d.courier == Some(courier))
    requires r < |runs| && runs[r] == Run(courier, Draft, runs[r].version)
    ensures var e := PlaceRow(d, r, courier, position);
            && RowOk(e) && RunOk(e, runs) && Kin(d, e) && e.run == Some(r) && e.stop == Some(position)
            && e.status == Assigned && e.courier == Some(courier)
  {
    if d.status == Planned {
      AssignRow(d.(run := None), courier);
      assert Moved(d.(run := Some(r), stop := Some(position), courier := Some(courier)), Assigned)
          == Moved(d.(run := None).(courier := Some(courier)), Assigned).(run := Some(r), stop := Some(position));
    }
  }

  lemma PositionsDiffer(ids: seq<nat>, i: nat, j: nat)
    requires i in ids && j in ids && i != j
    ensures Position(ids, i) != Position(ids, j)
  {
  }

  lemma PlaceKeeps(s: Depot, r: nat, ids: seq<nat>)
    requires Inv(s) && r < |s.runs| && s.runs[r].status == Draft
    requires forall i :: 0 <= i < |s.deliveries| && s.deliveries[i].run == Some(r) ==> i in ids
    requires forall k :: 0 <= k < |ids| ==> PlaceError(s.deliveries, r, s.runs[r].courier, ids[k]) == None
    ensures Inv(s.(deliveries := PlaceAll(s.deliveries, r, s.runs[r].courier, ids)))
    ensures var es := PlaceAll(s.deliveries, r, s.runs[r].courier, ids);
            forall i :: 0 <= i < |es| ==>
              if i in ids then es[i].run == Some(r) && es[i].stop == Some(Position(ids, i)) && es[i].status == Assigned
              else es[i] == s.deliveries[i] && es[i].run != Some(r)
  {
    hide RowOk, OrdersOk, TicketsOk, PlaceRow, IsOpen, Position;
    var courier := s.runs[r].courier;
    var es := PlaceAll(s.deliveries, r, courier, ids);
    forall i | 0 <= i < |es|
      ensures RowOk(es[i]) && RunOk(es[i], s.runs) && Kin(s.deliveries[i], es[i])
      ensures if i in ids then es[i].run == Some(r) && es[i].stop == Some(Position(ids, i)) && es[i].status == Assigned
              else es[i] == s.deliveries[i] && es[i].run != Some(r)
    {
      if i in ids {
        var k :| 0 <= k < |ids| && ids[k] == i;
        assert PlaceError(s.deliveries, r, courier, ids[k]) == None;
        PlacedRow(s.deliveries[i], r, courier, Position(ids, i), s.runs);
      }
    }
    forall i, j | 0 <= i < j < |es| && es[i].run.Some? && es[i].run == es[j].run ensures es[i].stop != es[j].stop {
      if i in ids && j in ids { PositionsDiffer(ids, i, j); }
    }
    Replaced(s, es, s.runs);
  }

  lemma SetStopsKeeps(s: Depot, r: nat, ids: seq<nat>)
    requires Inv(s) && r < |s.runs| && s.runs[r].status == Draft && SetStops(s, r, ids).Ok?
    ensures Inv(SetStops(s, r, ids).value) && SetStops(s, r, ids).value.runs == s.runs
  {
    hide Inv, PlaceError, FirstPlaceError, PlaceAll, DropOthers;
    var dropped := s.(deliveries := DropOthers(s.deliveries, r, ids));
    DropKeeps(s, r, ids);
    AllPlaceable(dropped.deliveries, r, s.runs[r].courier, ids);
    PlaceKeeps(dropped, r, ids);
  }

  /** A run nobody is on may be opened, and a run's version may move. */
  lemma RunsChanged(s: Depot, runs: seq<Run>)
    requires Inv(s) && |s.runs| <= |runs|
    requires forall r :: 0 <= r < |s.runs| ==>
               && runs[r].courier == s.runs[r].courier
               && (runs[r].status != s.runs[r].status ==>
                     forall i :: 0 <= i < |s.deliveries| && s.deliveries[i].run == Some(r) ==>
                       RunOk(s.deliveries[i], runs))
    ensures Inv(s.(runs := runs))
  {
  }

  lemma InSort<T(!new)>(s: seq<T>, lt: (T, T) -> bool, x: T)
    ensures x in Sort(s, lt) <==> x in s
  {
    assert x in multiset(Sort(s, lt)) <==> x in multiset(s);
  }

  /** The stop query returns every stop of the run, and nothing else. */
  lemma RunStopsAre(ds: seq<Delivery>, r: nat, i: nat)
    ensures i in RunStops(ds, r) <==> i < |ds| && ds[i].run == Some(r)
  {
    hide Sort, Filter;
    InSort(Filter(Ids(|ds|), OnRun(ds, r)), StopBefore(ds), i);
    if i < |ds| { assert Ids(|ds|)[i] == i; }
  }

  function Self(): nat -> int { (i: nat) => i }

  lemma RunStopsDistinct(ds: seq<Delivery>, r: nat)
    ensures Distinct(RunStops(ds, r))
  {
    hide Sort, Filter;
    var found := Filter(Ids(|ds|), OnRun(ds, r));
    FilterDistinct(Ids(|ds|), OnRun(ds, r), Self());
    PermutationDistinct(found, Sort(found, StopBefore(ds)), Self());
    forall a, b | 0 <= a < b < |RunStops(ds, r)| ensures RunStops(ds, r)[a] != RunStops(ds, r)[b] {
      assert Self()(RunStops(ds, r)[a]) != Self()(RunStops(ds, r)[b]);
    }
  }

  lemma StartKeeps(s: Depot, a: Actor, r: nat, codes: nat -> int, refused: set<nat>)
    requires Inv(s) && r < |s.runs| && StartRun(s, a, r, codes, refused).Ok?
    ensures Inv(StartRun(s, a, r, codes, refused).value)
  {
    hide RowOk, OrdersOk, TicketsOk, RunStops, FirstDispatchError, IsOpen, Kin, Mint;
    var stops := RunStops(s.deliveries, r);
    var es := DispatchAll(s.deliveries, stops, codes);
    var runs := s.runs[r := Bumped(s.runs[r], Started)];
    forall i | 0 <= i < |es|
      ensures RowOk(es[i]) && RunOk(es[i], runs) && Kin(s.deliveries[i], es[i])
      ensures es[i].run == s.deliveries[i].run && es[i].stop == s.deliveries[i].stop
    {
      StartedRow(s, i, es[i], stops, codes, r, runs);
    }
    Replaced(s, es, runs);
  }

  lemma StartedRow(s: Depot, i: nat, e: Delivery, stops: seq<nat>, codes: nat -> int, r: nat, runs: seq<Run>)
    requires RowsOk(s.deliveries, s.runs) && r < |s.runs| && s.runs[r].status == Draft
    requires i < |s.deliveries| && e == DispatchAll(s.deliveries, stops, codes)[i] && stops == RunStops(s.deliveries, r)
    requires runs == s.runs[r := Bumped(s.runs[r], Started)]
    ensures RowOk(e) && RunOk(e, runs) && Kin(s.deliveries[i], e)
    ensures e.run == s.deliveries[i].run && e.stop == s.deliveries[i].stop
  {
    hide RowOk, RunStops;
    var d := s.deliveries[i];
    RunStopsAre(s.deliveries, r, i);
    assert RowOk(d) && RunOk(d, s.runs);
    if i in stops && d.status == Assigned { DispatchedRow(d, codes(i)); }
  }

  // ---------------------------------------------------------------- every operation

  lemma RowOpKeeps(s: Depot, op: Op)
    requires Inv(s) && Known(s, op)
    requires op.OpAssign? || op.OpUnassign? || op.OpCancel?
    ensures Inv(Step(s, op))
  {
    hide OrdersOk, TicketsOk, StopsOk, PathOk, CodeOk, VersionOk;
    var i := op.row;
    var d := s.deliveries[i];
    match op
    case OpAssign(_, courier, _, _) =>
      if Assign(s, i, courier, op.eligible, op.expected).Ok? {
        AssignRow(d, courier);
        Replaced1(s, i, Moved(d.(courier := Some(courier)), Assigned));
      }
    case OpUnassign(_, expected) =>
      if Unassign(s, i, expected).Ok? {
        UnassignRow(d);
        Replaced1(s, i, Moved(OffRun(d).(courier := None), Planned));
      }
    case OpCancel(_, expected) =>
      if Cancel(s, i, expected).Ok? {
        CancelRow(d);
        Replaced1(s, i, Moved(OffRun(d), Cancelled));
      }
  }

  lemma LeaveKeeps(s: Depot, op: Op)
    requires Inv(s) && Known(s, op) && (op.OpDispatch? || op.OpArrive?)
    ensures Inv(Step(s, op))
  {
    hide OrdersOk, TicketsOk, StopsOk, PathOk, CodeOk, VersionOk;
    var i := op.row;
    var d := s.deliveries[i];
    match op
    case OpDispatch(a, _, code, accepted) =>
      if Dispatch(s, a, i, code, accepted).Ok? {
        DispatchedRow(d, code);
        Replaced1(s, i, Moved(Mint(d, code), InTransit));
      }
    case OpArrive(a, _) =>
      if Arrive(s, a, i).Ok? {
        ArriveRow(d);
        Replaced1(s, i, Moved(d, Arrived));
      }
  }

  lemma SpendKeeps(s: Depot, a: Actor, i: nat, code: int)
    requires Inv(s) && i < |s.deliveries|
    ensures Inv(SpendAttempt(s, a, i, code).0)
  {
    hide OrdersOk, StopsOk, PathOk;
    var d := s.deliveries[i];
    if MayAct(a, d).Some? || d.status !in Sources(DoDeliver) || d.codeLocked {
    } else if d.code == Some(code) {
      assert TicketOk(Ticket(a, i, code, |d.log|), s.deliveries);
    } else {
      RejectRow(d);
      Replaced1(s, i, Reject(d));
    }
  }

  lemma ConfirmKeeps(s: Depot, t: Ticket, accepted: bool)
    requires Inv(s) && t in s.tickets && t.row < |s.deliveries|
    ensures Inv(Kept(s, Confirm(s, t, accepted)))
  {
    hide OrdersOk, TicketsOk, StopsOk, PathOk, CodeOk, VersionOk;
    if Confirm(s, t, accepted).Ok? {
      DeliverRow(s.deliveries[t.row], ByCode);
      Replaced1(s, t.row, Moved(s.deliveries[t.row].(confirmation := Some(ByCode)), Delivered));
    }
  }

  lemma RoadOpKeeps(s: Depot, op: Op)
    requires Inv(s) && Known(s, op)
    requires op.OpConfirm? || op.OpManual? || op.OpFail? || op.OpRegenerate?
    ensures Inv(Step(s, op))
  {
    hide OrdersOk, TicketsOk, StopsOk, PathOk, CodeOk, VersionOk;
    match op
    case OpConfirm(k, accepted) =>
      ConfirmKeeps(s, s.tickets[k], accepted);
    case OpManual(i, n, accepted) =>
      if ManualConfirm(s, i, n, accepted).Ok? {
        DeliverRow(s.deliveries[i], ByOverride);
        Replaced1(s, i, Moved(s.deliveries[i].(confirmation := Some(ByOverride)), Delivered));
      }
    case OpFail(a, i, given, accepted) =>
      if Fail(s, a, i, given, accepted).Ok? {
        FailRow(s.deliveries[i]);
        Replaced1(s, i, Moved(s.deliveries[i], Failed));
      }
    case OpRegenerate(i, code) =>
      if RegenerateCode(s, i, code).Ok? {
        var d := s.deliveries[i];
        RecodeRow(d, code);
        Replaced1(s, i, Mint(d, code).(version := d.version + 1));
      }
  }

  lemma RunOpKeeps(s: Depot, op: Op)
    requires Inv(s) && Known(s, op)
    requires op.OpCreateRun? || op.OpUpdateRun? || op.OpStart? || op.OpFinish? || op.OpCancelRun?
    ensures Inv(Step(s, op))
  {
    hide RowOk, OrdersOk, TicketsOk, StopsOk, SetStops, StartRun, DropRow;
    match op
    case OpCreateRun(courier, eligible, ids) =>
      if CreateRun(s, courier, eligible, ids).Ok? {
        var began := s.(runs := s.runs + [Run(courier, Draft, 1)]);
        RunsChanged(s, began.runs);
        SetStopsKeeps(began, |s.runs|, ids);
      }
    case OpUpdateRun(r, ids, expected) =>
      if UpdateRun(s, r, ids, expected).Ok? {
        SetStopsKeeps(s, r, ids);
        var t := SetStops(s, r, ids).value;
        RunsChanged(t, t.runs[r := Bumped(t.runs[r], Draft)]);
      }
    case OpStart(a, r, codes, refused) =>
      if StartRun(s, a, r, codes, refused).Ok? { StartKeeps(s, a, r, codes, refused); }
    case OpFinish(a, r) =>
      if FinishRun(s, a, r).Ok? { FinishKeeps(s, a, r); }
    case OpCancelRun(r) =>
      if CancelRun(s, r).Ok? {
        DropKeeps(s, r, []);
        var t := s.(deliveries := DropOthers(s.deliveries, r, []));
        RunsChanged(t, s.runs[r := Bumped(s.runs[r], Dropped)]);
      }
  }

  lemma FinishKeeps(s: Depot, a: Actor, r: nat)
    requires Inv(s) && r < |s.runs| && FinishRun(s, a, r).Ok?
    ensures Inv(FinishRun(s, a, r).value)
  {
    hide OrdersOk, TicketsOk, StopsOk, PathOk, CodeOk;
    var runs := s.runs[r := Bumped(s.runs[r], Finished)];
    forall i | 0 <= i < |s.deliveries| && s.deliveries[i].run == Some(r) ensures RunOk(s.deliveries[i], runs) {
      assert RunOk(s.deliveries[i], s.runs) && RowOk(s.deliveries[i]);
    }
    RunsChanged(s, runs);
  }

  lemma CancelForOrderKeeps(s: Depot, order: nat)
    requires Inv(s)
    ensures Inv(Kept(s, CancelForOrder(s, order)))
  {
    hide OrdersOk, TicketsOk, StopsOk, PathOk, LiveRow;
    var i := LiveRow(s.deliveries, order);
    if i < |s.deliveries| && !OnTheRoad(s.deliveries[i].status) {
      CancelRow(s.deliveries[i]);
      Replaced1(s, i, Moved(OffRun(s.deliveries[i]), Cancelled));
    }
  }

  lemma StepKeeps(s: Depot, op: Op)
    requires Inv(s)
    ensures Inv(Step(s, op))
  {
    hide Inv, PlanForOrder, CancelForOrder, SpendAttempt;
    if Known(s, op) {
      if op.OpPlan? { PlanKeeps(s, op.order); }
      else if op.OpCancelForOrder? { CancelForOrderKeeps(s, op.order); }
      else if op.OpSpend? { SpendKeeps(s, op.actor, op.row, op.code); }
      else if op.OpCreateRun? || op.OpUpdateRun? || op.OpStart? || op.OpFinish? || op.OpCancelRun? {
        RunOpKeeps(s, op);
      }
      else if op.OpConfirm? || op.OpManual? || op.OpFail? || op.OpRegenerate? { RoadOpKeeps(s, op); }
      else if op.OpDispatch? || op.OpArrive? { LeaveKeeps(s, op); }
      else { RowOpKeeps(s, op); }
    }
  }

  lemma {:induction false} DaysKeep(ops: seq<Op>)
    ensures Inv(Days(ops))
  {
    hide Step;
    if ops != [] {
      hide Inv;
      DaysKeep(ops[..|ops| - 1]);
      StepKeeps(Days(ops[..|ops| - 1]), ops[|ops| - 1]);
    }
  }
}
