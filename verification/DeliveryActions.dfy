/**
 What each transaction on a delivery or a run does, field by field: exactly when it is accepted, the row it
 leaves, and why it is refused. Statuses, limits and permissions are written out.
 */
module DeliveryActions {
  import opened Seqs
  import opened Deliveries
  import opened DeliveryProofs
  import opened DeliveryTheorems

  // ---------------------------------------------------------------- who may, and what moves

  /** Whoever may act for anyone may act; others act on their own deliveries only. */
  predicate Permitted(a: Actor, courier: Option<nat>) { a.actAny || (a.actOwn && courier == Some(a.user)) }

  /** Why not: without either permission, or on a delivery of someone else. */
  lemma MayActMeans(a: Actor, d: Delivery)
    ensures MayAct(a, d) == None <==> Permitted(a, d.courier)
    ensures MayAct(a, d) == Some(PermissionDenied) <==> !a.actAny && !a.actOwn
    ensures MayAct(a, d) == Some(CourierNotAssigned) <==> !a.actAny && a.actOwn && d.courier != Some(a.user)
  {
  }

  lemma MayDriveMeans(a: Actor, run: Run)
    ensures MayDrive(a, run) == if Permitted(a, Some(run.courier)) then None else Some(CourierNotAssigned)
  {
  }

  /** Only row `i` is another. */
  predicate Becomes(s: Depot, t: Depot, i: nat, e: Delivery)
    requires i < |s.deliveries|
  {
    t == s.(deliveries := s.deliveries[i := e])
  }

  // ---------------------------------------------------------------- planning and assigning

  /** An order without an open attempt gets a new one, planned, under the next number; otherwise nothing. */
  lemma PlanOutcome(s: Depot, order: nat)
    ensures var t := PlanForOrder(s, order);
            if exists i :: 0 <= i < |s.deliveries| && s.deliveries[i].order == order
                           && s.deliveries[i].status in {Planned, Assigned, InTransit, Arrived}
            then t == s
            else
              && |t.deliveries| == |s.deliveries| + 1 && t.deliveries[..|s.deliveries|] == s.deliveries
              && t.runs == s.runs && t.tickets == s.tickets
              && var d := t.deliveries[|s.deliveries|];
              && d.order == order && d.status == Planned && d.history == [Change(None, Planned)] && d.version == 1
              && d.courier == None && d.run == None && d.stop == None && d.code == None && d.codeAttempts == 0
              && !d.codeLocked && d.log == [] && d.confirmation == None
              && (forall i :: 0 <= i < |s.deliveries| && s.deliveries[i].order == order ==>
                    s.deliveries[i].attemptNo < d.attemptNo)
              && (d.attemptNo == 1
                  || exists i :: 0 <= i < |s.deliveries| && s.deliveries[i].order == order
                                 && s.deliveries[i].attemptNo == d.attemptNo - 1)
  {
    MaxAttemptIs(s.deliveries, order);
  }

  lemma AssignOutcome(s: Depot, i: nat, courier: nat, eligible: bool, expected: nat)
    requires i < |s.deliveries|
    ensures var d := s.deliveries[i];
            var r := Assign(s, i, courier, eligible, expected);
            && (r.Ok? <==> d.version == expected && d.status == Planned && eligible)
            && (r == Err(VersionConflict) <==> d.version != expected)
            && (r == Err(InvalidTransition) <==> d.version == expected && d.status != Planned)
            && (r == Err(NotACourier) <==> d.version == expected && d.status == Planned && !eligible)
            && (r.Ok? ==>
                  Becomes(s, r.value, i, d.(status := Assigned, courier := Some(courier), version := expected + 1,
                                            history := d.history + [Change(Some(Planned), Assigned)])))
  {
  }

  lemma UnassignOutcome(s: Depot, i: nat, expected: nat)
    requires i < |s.deliveries| && (s.deliveries[i].run.Some? ==> s.deliveries[i].run.value < |s.runs|)
    ensures var d := s.deliveries[i];
            var r := Unassign(s, i, expected);
            && (r.Ok? <==>
                  d.version == expected && d.status == Assigned
                  && (d.run.Some? ==> s.runs[d.run.value].status == Draft))
            && (r == Err(VersionConflict) <==> d.version != expected)
            && (r == Err(InvalidTransition) <==> d.version == expected && d.status != Assigned)
            && (r.Ok? ==>
                  Becomes(s, r.value, i, d.(status := Planned, courier := None, run := None, stop := None,
                                            version := expected + 1,
                                            history := d.history + [Change(Some(Assigned), Planned)])))
  {
  }

  // ---------------------------------------------------------------- cancelling

  lemma CancelOutcome(s: Depot, i: nat, expected: nat)
    requires i < |s.deliveries|
    ensures var d := s.deliveries[i];
            var r := Cancel(s, i, expected);
            && (r.Ok? <==> d.version == expected && d.status in {Planned, Assigned})
            && (r == Err(VersionConflict) <==> d.version != expected)
            && (r == Err(InvalidTransition) <==> d.version == expected && d.status !in {Planned, Assigned})
            && (r.Ok? ==>
                  Becomes(s, r.value, i, d.(status := Cancelled, run := None, stop := None, version := expected + 1,
                                            history := d.history + [Change(Some(d.status), Cancelled)])))
  {
  }

  /** A cancelled order takes its one live delivery off the road map, but not off the road. */
  lemma CancelForOrderOutcome(s: Depot, order: nat, i: nat)
    requires Inv(s) && i < |s.deliveries| && s.deliveries[i].order == order
    requires s.deliveries[i].status in {Planned, Assigned, InTransit, Arrived}
    ensures var d := s.deliveries[i];
            var r := CancelForOrder(s, order);
            if d.status in {InTransit, Arrived} then r == Err(InvalidTransition)
            else
              r.Ok?
              && Becomes(s, r.value, i, d.(status := Cancelled, run := None, stop := None, version := d.version + 1,
                                           history := d.history + [Change(Some(d.status), Cancelled)]))
  {
    hide RowsOk, StopsOk, TicketsOk;
    OneLive(s.deliveries, order, i, LiveRow(s.deliveries, order));
    LiveRowFinds(s.deliveries, order, i);
  }

  lemma {:induction false} LiveRowFinds(ds: seq<Delivery>, order: nat, i: nat)
    requires i < |ds| && ds[i].order == order && IsOpen(ds[i].status)
    ensures LiveRow(ds, order) < |ds|
  {
    if i < |ds| - 1 { LiveRowFinds(ds[..|ds| - 1], order, i); }
  }

  lemma OneLive(ds: seq<Delivery>, order: nat, i: nat, j: nat)
    requires OrdersOk(ds) && i < |ds| && ds[i].order == order && IsOpen(ds[i].status)
    ensures j < |ds| && ds[j].order == order && IsOpen(ds[j].status) ==> j == i
  {
  }

  lemma NothingToCancel(s: Depot, order: nat)
    requires forall i :: 0 <= i < |s.deliveries| && s.deliveries[i].order == order ==>
               s.deliveries[i].status in {Delivered, Failed, Cancelled}
    ensures CancelForOrder(s, order) == Ok(s)
  {
  }

  // ---------------------------------------------------------------- on the road

  /** The code is minted as the goods leave; the counter and the lock start afresh. */
  lemma DispatchOutcome(s: Depot, a: Actor, i: nat, code: int, accepted: bool)
    requires i < |s.deliveries|
    ensures var d := s.deliveries[i];
            var r := Dispatch(s, a, i, code, accepted);
            && (r.Ok? <==> Permitted(a, d.courier) && d.status == Assigned && accepted)
            && (r == Err(InvalidTransition) <==> Permitted(a, d.courier) && d.status != Assigned)
            && (r == Err(Refused) <==> Permitted(a, d.courier) && d.status == Assigned && !accepted)
            && (r.Ok? ==>
                  Becomes(s, r.value, i, d.(status := InTransit, code := Some(code), codeAttempts := 0,
                                            codeLocked := false, log := d.log + [Minted(code)],
                                            version := d.version + 1,
                                            history := d.history + [Change(Some(Assigned), InTransit)])))
  {
  }

  lemma ArriveOutcome(s: Depot, a: Actor, i: nat)
    requires i < |s.deliveries|
    ensures var d := s.deliveries[i];
            var r := Arrive(s, a, i);
            && (r.Ok? <==> Permitted(a, d.courier) && d.status == InTransit)
            && (r == Err(InvalidTransition) <==> Permitted(a, d.courier) && d.status != InTransit)
            && (r.Ok? ==>
                  Becomes(s, r.value, i, d.(status := Arrived, version := d.version + 1,
                                            history := d.history + [Change(Some(InTransit), Arrived)])))
  {
  }

  /** Failing takes a reason; the row keeps its courier, run and code and gets no confirmation. */
  lemma FailOutcome(s: Depot, a: Actor, i: nat, reasonGiven: bool, accepted: bool)
    requires i < |s.deliveries|
    ensures var d := s.deliveries[i];
            var r := Fail(s, a, i, reasonGiven, accepted);
            && (r.Ok? <==> reasonGiven && Permitted(a, d.courier) && d.status in {InTransit, Arrived} && accepted)
            && (r == Err(ValidationError) <==> !reasonGiven)
            && (r == Err(InvalidTransition) <==>
                  reasonGiven && Permitted(a, d.courier) && d.status !in {InTransit, Arrived})
            && (r.Ok? ==>
                  Becomes(s, r.value, i, d.(status := Failed, version := d.version + 1,
                                            history := d.history + [Change(Some(d.status), Failed)])))
  {
  }

  /** The first half of a confirmation: the right code leaves a ticket, a wrong one is counted, the fifth locks. */
  lemma SpendOutcome(s: Depot, a: Actor, i: nat, code: int)
    requires i < |s.deliveries|
    ensures var d := s.deliveries[i];
            var (t, e) := SpendAttempt(s, a, i, code);
            var able := Permitted(a, d.courier) && d.status in {InTransit, Arrived} && !d.codeLocked;
            && (e == None <==> able && d.code == Some(code))
            && (e == None ==> t == s.(tickets := s.tickets + [Ticket(a, i, code, |d.log|)]))
            && (e == Some(CodeIsInvalid) <==> able && d.code != Some(code) && d.codeAttempts < 4)
            && (e == Some(CodeIsLocked) <==>
                  && Permitted(a, d.courier) && d.status in {InTransit, Arrived}
                  && (d.codeLocked || (d.code != Some(code) && d.codeAttempts >= 4)))
            && (able && d.code != Some(code) ==>
                  Becomes(s, t, i, d.(codeAttempts := d.codeAttempts + 1, codeLocked := d.codeAttempts >= 4,
                                      log := d.log + [WrongCode])))
            && (!able ==> t == s)
  {
  }

  /** The second half, against the row as it is by then. */
  lemma ConfirmOutcome(s: Depot, t: Ticket, accepted: bool)
    requires t.row < |s.deliveries|
    ensures var d := s.deliveries[t.row];
            var r := Confirm(s, t, accepted);
            var able := Permitted(t.actor, d.courier) && d.status in {InTransit, Arrived};
            && (r.Ok? <==> able && !d.codeLocked && d.code == Some(t.code) && accepted)
            && (r == Err(CodeIsLocked) <==> able && d.codeLocked)
            && (r == Err(CodeIsInvalid) <==> able && !d.codeLocked && d.code != Some(t.code))
            && (r.Ok? ==>
                  Becomes(s, r.value, t.row, d.(status := Delivered, confirmation := Some(ByCode),
                                                version := d.version + 1,
                                                history := d.history + [Change(Some(d.status), Delivered)])))
  {
  }

  lemma ManualOutcome(s: Depot, i: nat, reasonLength: nat, accepted: bool)
    requires i < |s.deliveries|
    ensures var d := s.deliveries[i];
            var r := ManualConfirm(s, i, reasonLength, accepted);
            && (r.Ok? <==> reasonLength >= 10 && d.status in {InTransit, Arrived} && accepted)
            && (r == Err(ValidationError) <==> reasonLength < 10)
            && (r == Err(InvalidTransition) <==> reasonLength >= 10 && d.status !in {InTransit, Arrived})
            && (r.Ok? ==>
                  Becomes(s, r.value, i, d.(status := Delivered, confirmation := Some(ByOverride),
                                            version := d.version + 1,
                                            history := d.history + [Change(Some(d.status), Delivered)])))
  {
  }

  /** A new code for a delivery on the road; its status and history stay. */
  lemma RegenerateOutcome(s: Depot, i: nat, code: int)
    requires i < |s.deliveries|
    ensures var d := s.deliveries[i];
            var r := RegenerateCode(s, i, code);
            && (r.Ok? <==> d.status in {InTransit, Arrived})
            && (r.Ok? ==>
                  Becomes(s, r.value, i, d.(code := Some(code), codeAttempts := 0, codeLocked := false,
                                            log := d.log + [Minted(code)], version := d.version + 1)))
            && (!r.Ok? ==> r == Err(InvalidTransition))
  {
  }

  // ---------------------------------------------------------------- stop lists

  predicate GoodList(s: Depot, r: nat, courier: nat, ids: seq<nat>) {
    (forall a, b :: 0 <= a < b < |ids| ==> ids[a] != ids[b])
    && forall k :: 0 <= k < |ids| ==> MayStand(s, r, courier, ids[k])
  }

  /** A row taken off its run; an assigned one goes back to the pool, without its courier. */
  function TakenOff(d: Delivery): Delivery {
    if d.status == Assigned then
      d.(status := Planned, courier := None, run := None, stop := None, version := d.version + 1,
         history := d.history + [Change(Some(Assigned), Planned)])
    else d.(run := None, stop := None)
  }

  /** A row put on the list; a planned one is assigned to the run's courier. */
  function PutOn(d: Delivery, r: nat, courier: nat, stop: nat): Delivery {
    if d.status == Planned then
      d.(status := Assigned, courier := Some(courier), run := Some(r), stop := Some(stop), version := d.version + 1,
         history := d.history + [Change(Some(Planned), Assigned)])
    else d.(run := Some(r), stop := Some(stop))
  }

  /** What a list leaves of every row: its own at their places, the run's others off, the rest as they were. */
  ghost predicate Listed(s: Depot, es: seq<Delivery>, r: nat, courier: nat, ids: seq<nat>) {
    && |es| == |s.deliveries|
    && (forall k :: 0 <= k < |ids| ==> ids[k] < |es| && es[ids[k]] == PutOn(s.deliveries[ids[k]], r, courier, k + 1))
    && (forall i :: 0 <= i < |es| && i !in ids ==>
          es[i] == if s.deliveries[i].run == Some(r) then TakenOff(s.deliveries[i]) else s.deliveries[i])
  }

  lemma ListAccepted(s: Depot, r: nat, ids: seq<nat>)
    requires r < |s.runs|
    ensures SetStops(s, r, ids).Ok? <==> GoodList(s, r, s.runs[r].courier, ids)
    ensures SetStops(s, r, ids).Ok? ==>
      SetStops(s, r, ids).value
      == s.(deliveries := PlaceAll(DropOthers(s.deliveries, r, ids), r, s.runs[r].courier, ids))
  {
    hide DropRow, PlaceAll, PlaceError, FirstPlaceError, MayStand;
    var ds := DropOthers(s.deliveries, r, ids);
    FirstPlaceErrorIs(ds, r, s.runs[r].courier, ids);
    forall k | 0 <= k < |ids|
      ensures PlaceError(ds, r, s.runs[r].courier, ids[k]) == None <==> MayStand(s, r, s.runs[r].courier, ids[k])
    {
      assert ids[k] in ids;
      PlaceErrorMeans(s, ds, r, s.runs[r].courier, ids[k]);
    }
  }

  lemma ListLeaves(s: Depot, r: nat, courier: nat, ids: seq<nat>)
    requires GoodList(s, r, courier, ids)
    ensures Listed(s, PlaceAll(DropOthers(s.deliveries, r, ids), r, courier, ids), r, courier, ids)
  {
    hide DropRow, PlaceRow, PutOn, TakenOff, Position;
    var ds := DropOthers(s.deliveries, r, ids);
    var es := PlaceAll(ds, r, courier, ids);
    forall k | 0 <= k < |ids|
      ensures ids[k] < |es| && es[ids[k]] == PutOn(s.deliveries[ids[k]], r, courier, k + 1)
    {
      assert ids[k] in ids && MayStand(s, r, courier, ids[k]);
      PositionAt(ids, k);
      PlaceMeans(s.deliveries[ids[k]], r, courier, k + 1);
    }
    forall i | 0 <= i < |es| && i !in ids
      ensures es[i] == if s.deliveries[i].run == Some(r) then TakenOff(s.deliveries[i]) else s.deliveries[i]
    {
      DropMeans(s.deliveries[i]);
    }
  }

  lemma ListOutcome(s: Depot, r: nat, ids: seq<nat>)
    requires r < |s.runs|
    ensures var t := SetStops(s, r, ids);
            && (t.Ok? <==> GoodList(s, r, s.runs[r].courier, ids))
            && (t.Ok? ==> t.value == s.(deliveries := t.value.deliveries)
                          && Listed(s, t.value.deliveries, r, s.runs[r].courier, ids))
  {
    hide SetStops, GoodList, Listed, PlaceAll, DropOthers;
    ListAccepted(s, r, ids);
    if SetStops(s, r, ids).Ok? { ListLeaves(s, r, s.runs[r].courier, ids); }
  }

  lemma PlaceErrorMeans(s: Depot, ds: seq<Delivery>, r: nat, courier: nat, i: nat)
    requires |ds| == |s.deliveries| && (i < |ds| ==> ds[i] == s.deliveries[i])
    ensures PlaceError(ds, r, courier, i) == None <==> MayStand(s, r, courier, i)
  {
  }

  lemma PlaceMeans(d: Delivery, r: nat, courier: nat, stop: nat)
    ensures PlaceRow(d, r, courier, stop) == PutOn(d, r, courier, stop)
  {
  }

  lemma DropMeans(d: Delivery)
    ensures DropRow(d) == TakenOff(d)
  {
  }

  // ---------------------------------------------------------------- runs

  /** A new draft run for an eligible courier, with its whole list, or none at all. */
  lemma CreateOutcome(s: Depot, courier: nat, eligible: bool, ids: seq<nat>)
    ensures var t := CreateRun(s, courier, eligible, ids);
            && (t.Ok? <==> ids != [] && eligible && GoodList(s, |s.runs|, courier, ids))
            && (ids == [] ==> t == Err(ValidationError))
            && (ids != [] && !eligible ==> t == Err(NotACourier))
            && (t.Ok? ==>
                  && t.value.runs == s.runs + [Run(courier, Draft, 1)] && t.value.tickets == s.tickets
                  && Listed(s, t.value.deliveries, |s.runs|, courier, ids))
  {
    hide SetStops, Listed, MayStand;
    var z := s.(runs := s.runs + [Run(courier, Draft, 1)]);
    ListOutcome(z, |s.runs|, ids);
    forall i ensures MayStand(z, |s.runs|, courier, i) == MayStand(s, |s.runs|, courier, i) {
      StandsAlike(s, z, |s.runs|, courier, i);
    }
    if SetStops(z, |s.runs|, ids).Ok? {
      ListedAlike(s, z, SetStops(z, |s.runs|, ids).value.deliveries, |s.runs|, courier, ids);
    }
  }

  lemma StandsAlike(s: Depot, z: Depot, r: nat, courier: nat, i: nat)
    requires z.deliveries == s.deliveries
    ensures MayStand(z, r, courier, i) == MayStand(s, r, courier, i)
  {
  }

  lemma ListedAlike(s: Depot, z: Depot, es: seq<Delivery>, r: nat, courier: nat, ids: seq<nat>)
    requires z.deliveries == s.deliveries
    ensures Listed(z, es, r, courier, ids) == Listed(s, es, r, courier, ids)
  {
  }

  lemma UpdateOutcome(s: Depot, r: nat, ids: seq<nat>, expected: nat)
    requires r < |s.runs|
    ensures var t := UpdateRun(s, r, ids, expected);
            && (t.Ok? <==>
                  s.runs[r].status == Draft && s.runs[r].version == expected
                  && GoodList(s, r, s.runs[r].courier, ids))
            && (t == Err(RunNotEditable) <==> s.runs[r].status != Draft)
            && (s.runs[r].status == Draft && s.runs[r].version != expected ==> t == Err(VersionConflict))
            && (t.Ok? ==>
                  && t.value.runs == s.runs[r := Run(s.runs[r].courier, Draft, expected + 1)]
                  && t.value.tickets == s.tickets
                  && Listed(s, t.value.deliveries, r, s.runs[r].courier, ids))
  {
    hide SetStops, Listed, GoodList;
    ListOutcome(s, r, ids);
    ListRefusals(s, r, ids);
  }

  lemma {:induction false} PlaceRefusals(ds: seq<Delivery>, r: nat, courier: nat, ids: seq<nat>)
    ensures var e := FirstPlaceError(ds, r, courier, ids);
            e.Some? ==> e.value in {NotFound, InvalidTransition, ValidationError}
  {
    if ids != [] { PlaceRefusals(ds, r, courier, ids[..|ids| - 1]); }
  }

  /** A list is refused as invalid, for an unknown delivery, or for one that is past assignment. */
  lemma ListRefusals(s: Depot, r: nat, ids: seq<nat>)
    requires r < |s.runs|
    ensures SetStops(s, r, ids).Err? ==> SetStops(s, r, ids).error in {NotFound, InvalidTransition, ValidationError}
  {
    hide FirstPlaceError, DropOthers, PlaceAll, Distinct;
    PlaceRefusals(DropOthers(s.deliveries, r, ids), r, s.runs[r].courier, ids);
  }

  /** The stops of the run that wait for it. */
  predicate Waits(s: Depot, r: nat, i: nat) {
    i < |s.deliveries| && s.deliveries[i].run == Some(r) && s.deliveries[i].status == Assigned
  }

  lemma {:induction false} FirstDispatchErrorIs(ds: seq<Delivery>, a: Actor, stops: seq<nat>, refused: set<nat>)
    ensures FirstDispatchError(ds, a, stops, refused) == None
       <==> forall k :: 0 <= k < |stops| ==> DispatchError(ds, a, stops[k], refused) == None
  {
    hide DispatchError;
    if stops != [] { FirstDispatchErrorIs(ds, a, stops[..|stops| - 1], refused); }
  }

  lemma DispatchErrorMeans(ds: seq<Delivery>, a: Actor, i: nat, refused: set<nat>)
    ensures DispatchError(ds, a, i, refused) == None <==>
      (i < |ds| && ds[i].status == Assigned ==> Permitted(a, ds[i].courier) && i !in refused)
  {
  }

  /** A draft run starts when its driver asks, it has a stop, and every waiting stop can leave; they all do. */
  lemma StartOutcome(s: Depot, a: Actor, r: nat, codes: nat -> int, refused: set<nat>)
    requires r < |s.runs|
    ensures var t := StartRun(s, a, r, codes, refused);
            && (t.Ok? <==>
                  && Permitted(a, Some(s.runs[r].courier)) && s.runs[r].status == Draft
                  && (exists i :: 0 <= i < |s.deliveries| && s.deliveries[i].run == Some(r))
                  && (forall i: nat :: Waits(s, r, i) ==> Permitted(a, s.deliveries[i].courier) && i !in refused))
            && (t.Ok? ==>
                  && t.value.runs == s.runs[r := Run(s.runs[r].courier, Started, s.runs[r].version + 1)]
                  && t.value.tickets == s.tickets && |t.value.deliveries| == |s.deliveries|
                  && (forall i :: 0 <= i < |s.deliveries| ==>
                        var d := s.deliveries[i];
                        t.value.deliveries[i]
                        == if Waits(s, r, i) then
                             d.(status := InTransit, code := Some(codes(i)), codeAttempts := 0, codeLocked := false,
                                log := d.log + [Minted(codes(i))], version := d.version + 1,
                                history := d.history + [Change(Some(Assigned), InTransit)])
                           else d))
  {
    hide RunStops, FirstDispatchError, DispatchError, DispatchRow, MayAct;
    var stops := RunStops(s.deliveries, r);
    MayDriveMeans(a, s.runs[r]);
    FirstDispatchErrorIs(s.deliveries, a, stops, refused);
    forall i: nat ensures i in stops <==> i < |s.deliveries| && s.deliveries[i].run == Some(r) {
      RunStopsAre(s.deliveries, r, i);
    }
    forall i: nat
      ensures DispatchError(s.deliveries, a, i, refused) == None <==>
        (i < |s.deliveries| && s.deliveries[i].status == Assigned ==>
           Permitted(a, s.deliveries[i].courier) && i !in refused)
    {
      DispatchErrorMeans(s.deliveries, a, i, refused);
    }
    SomeStop(s, r, stops);
    AllLeave(s, a, r, stops, refused);
  }

  lemma SomeStop(s: Depot, r: nat, stops: seq<nat>)
    requires forall i: nat :: i in stops <==> i < |s.deliveries| && s.deliveries[i].run == Some(r)
    ensures stops != [] <==> exists i :: 0 <= i < |s.deliveries| && s.deliveries[i].run == Some(r)
  {
    if stops != [] { assert stops[0] in stops; }
  }

  lemma AllLeave(s: Depot, a: Actor, r: nat, stops: seq<nat>, refused: set<nat>)
    requires forall i: nat :: i in stops <==> i < |s.deliveries| && s.deliveries[i].run == Some(r)
    ensures (forall k :: 0 <= k < |stops| ==> DispatchError(s.deliveries, a, stops[k], refused) == None)
       <==> forall i: nat :: Waits(s, r, i) ==> Permitted(a, s.deliveries[i].courier) && i !in refused
  {
    hide DispatchError;
    forall i: nat
      ensures DispatchError(s.deliveries, a, i, refused) == None <==>
        (i < |s.deliveries| && s.deliveries[i].status == Assigned ==>
           Permitted(a, s.deliveries[i].courier) && i !in refused)
    {
      DispatchErrorMeans(s.deliveries, a, i, refused);
    }
    forall k | 0 <= k < |stops| ensures stops[k] in stops { }
  }

  /** A started run finishes, for its driver, exactly when none of its stops is open. */
  lemma FinishOutcome(s: Depot, a: Actor, r: nat)
    requires r < |s.runs|
    ensures var t := FinishRun(s, a, r);
            && (t.Ok? <==>
                  && Permitted(a, Some(s.runs[r].courier)) && s.runs[r].status == Started
                  && (forall i :: 0 <= i < |s.deliveries| && s.deliveries[i].run == Some(r) ==>
                        s.deliveries[i].status in {Delivered, Failed, Cancelled}))
            && (t == Err(CourierNotAssigned) <==> !Permitted(a, Some(s.runs[r].courier)))
            && (t.Ok? ==>
                  t.value == s.(runs := s.runs[r := Run(s.runs[r].courier, Finished, s.runs[r].version + 1)]))
  {
    MayDriveMeans(a, s.runs[r]);
    forall i | 0 <= i < |s.deliveries|
      ensures IsOpen(s.deliveries[i].status) <==> s.deliveries[i].status !in {Delivered, Failed, Cancelled}
    {
      OpenOrEnded(s.deliveries[i].status);
    }
  }

  lemma OpenOrEnded(x: Status)
    ensures IsOpen(x) <==> x !in {Delivered, Failed, Cancelled}
  {
    match x
    case _ =>
  }

  /** A draft run is dropped and every stop of it taken off. */
  lemma CancelRunOutcome(s: Depot, r: nat)
    requires r < |s.runs|
    ensures var t := CancelRun(s, r);
            && (t.Ok? <==> s.runs[r].status == Draft)
            && (!t.Ok? ==> t == Err(RunNotEditable))
            && (t.Ok? ==>
                  && t.value.runs == s.runs[r := Run(s.runs[r].courier, Dropped, s.runs[r].version + 1)]
                  && t.value.tickets == s.tickets
                  && Listed(s, t.value.deliveries, r, s.runs[r].courier, []))
  {
    hide DropRow;
    forall i | 0 <= i < |s.deliveries| ensures DropRow(s.deliveries[i]) == TakenOff(s.deliveries[i]) {
      DropMeans(s.deliveries[i]);
    }
  }

  // ---------------------------------------------------------------- who ended it

  /** The accepted operation that ends row `i` as `x`. */
  ghost predicate Ends(s: Depot, op: Op, i: nat, x: Status) {
    Known(s, op)
    && match x
       case Delivered =>
         (op.OpConfirm? && s.tickets[op.ticket].row == i && Confirm(s, s.tickets[op.ticket], op.accepted).Ok?)
         || (op.OpManual? && op.row == i && ManualConfirm(s, i, op.reasonLength, op.accepted).Ok?)
       case Failed => op.OpFail? && op.row == i && Fail(s, op.actor, i, op.reasonGiven, op.accepted).Ok?
       case Cancelled =>
         (op.OpCancel? && op.row == i && Cancel(s, i, op.expected).Ok?)
         || (op.OpCancelForOrder? && i < |s.deliveries| && op.order == s.deliveries[i].order
             && CancelForOrder(s, op.order).Ok?)
       case _ => false
  }

  /** A row of a list, a started or a dropped run is as open as it was. */
  lemma ListEndsNothing(s: Depot, es: seq<Delivery>, r: nat, courier: nat, ids: seq<nat>, i: nat)
    requires Listed(s, es, r, courier, ids) && i < |es|
    ensures !IsOpen(es[i].status) ==> es[i].status == s.deliveries[i].status
  {
    if i in ids {
      var k :| 0 <= k < |ids| && ids[k] == i;
      assert es[ids[k]] == PutOn(s.deliveries[i], r, courier, k + 1);
    }
  }

  lemma RunOpEndsNothing(s: Depot, op: Op, i: nat)
    requires op.OpCreateRun? || op.OpUpdateRun? || op.OpStart? || op.OpFinish? || op.OpCancelRun?
    requires i < |Step(s, op).deliveries| && !IsOpen(Step(s, op).deliveries[i].status)
    ensures i < |s.deliveries| && s.deliveries[i].status == Step(s, op).deliveries[i].status
  {
    hide CreateRun, UpdateRun, StartRun, CancelRun, Listed, GoodList, Permitted;
    match op {
      case OpCreateRun(courier, eligible, ids) =>
        CreateOutcome(s, courier, eligible, ids);
        if CreateRun(s, courier, eligible, ids).Ok? {
          ListIsAsLong(s, Step(s, op).deliveries, |s.runs|, courier, ids);
          ListEndsNothing(s, Step(s, op).deliveries, |s.runs|, courier, ids, i);
        }
      case OpUpdateRun(r, ids, expected) =>
        if r < |s.runs| {
          UpdateOutcome(s, r, ids, expected);
          if UpdateRun(s, r, ids, expected).Ok? {
            ListIsAsLong(s, Step(s, op).deliveries, r, s.runs[r].courier, ids);
            ListEndsNothing(s, Step(s, op).deliveries, r, s.runs[r].courier, ids, i);
          }
        }
      case OpStart(a, r, codes, refused) => if r < |s.runs| { StartOutcome(s, a, r, codes, refused); }
      case OpFinish(_, _) =>
      case OpCancelRun(r) =>
        if r < |s.runs| {
          CancelRunOutcome(s, r);
          if CancelRun(s, r).Ok? {
            ListIsAsLong(s, Step(s, op).deliveries, r, s.runs[r].courier, []);
            ListEndsNothing(s, Step(s, op).deliveries, r, s.runs[r].courier, [], i);
          }
        }
    }
  }

  lemma ListIsAsLong(s: Depot, es: seq<Delivery>, r: nat, courier: nat, ids: seq<nat>)
    requires Listed(s, es, r, courier, ids)
    ensures |es| == |s.deliveries|
  {
  }

  lemma RowOpEnds(s: Depot, op: Op, i: nat)
    requires !(op.OpCreateRun? || op.OpUpdateRun? || op.OpStart? || op.OpFinish? || op.OpCancelRun? || op.OpPlan?)
    requires i < |s.deliveries| && IsOpen(s.deliveries[i].status)
    requires i < |Step(s, op).deliveries| && !IsOpen(Step(s, op).deliveries[i].status)
    ensures Ends(s, op, i, Step(s, op).deliveries[i].status)
  {
    hide LiveRow, MayAct;
    match op
    case OpCancelForOrder(_) =>
    case OpAssign(_, _, _, _) =>
    case OpUnassign(_, _) =>
    case OpCancel(_, _) =>
    case OpDispatch(_, _, _, _) =>
    case OpArrive(_, _) =>
    case OpSpend(_, _, _) =>
    case OpConfirm(_, _) =>
    case OpManual(_, _, _) =>
    case OpFail(_, _, _, _) =>
    case OpRegenerate(_, _) =>
  }

  lemma PlanEndsNothing(s: Depot, order: nat, i: nat)
    requires i < |PlanForOrder(s, order).deliveries| && !IsOpen(PlanForOrder(s, order).deliveries[i].status)
    ensures i < |s.deliveries| && s.deliveries[i] == PlanForOrder(s, order).deliveries[i]
  {
  }

  lemma StepEnds(s: Depot, op: Op, i: nat)
    requires i < |Step(s, op).deliveries| && !IsOpen(Step(s, op).deliveries[i].status)
    requires i < |s.deliveries| ==> IsOpen(s.deliveries[i].status)
    ensures i < |s.deliveries| && Ends(s, op, i, Step(s, op).deliveries[i].status)
  {
    hide Ends, IsOpen;
    if op.OpPlan? {
      PlanEndsNothing(s, op.order, i);
    } else if op.OpCreateRun? || op.OpUpdateRun? || op.OpStart? || op.OpFinish? || op.OpCancelRun? {
      RunOpEndsNothing(s, op, i);
    } else {
      NoNewRow(s, op);
      RowOpEnds(s, op, i);
    }
  }

  lemma NoNewRow(s: Depot, op: Op)
    requires !(op.OpCreateRun? || op.OpUpdateRun? || op.OpStart? || op.OpFinish? || op.OpCancelRun? || op.OpPlan?)
    ensures |Step(s, op).deliveries| == |s.deliveries|
  {
    hide MayAct, LiveRow;
  }

  /**
   Nothing ends by itself: in any run a delivered row was delivered by an accepted confirmation of that very
   row, with its code or by override, a failed one by a courier's report, a cancelled one by a cancellation
   of it or of its order.
   */
  lemma {:induction false} EndedBySomeone(ops: seq<Op>, i: nat)
    requires i < |Days(ops).deliveries| && !IsOpen(Days(ops).deliveries[i].status)
    ensures exists k :: 0 <= k < |ops| && Ends(Days(ops[..k]), ops[k], i, Days(ops).deliveries[i].status)
  {
    hide Step, Ends, IsOpen;
    var n := |ops| - 1;
    assert ops != [] by { NothingAtFirst(ops); }
    var rest := ops[..n];
    assert ops == rest + [ops[n]];
    if i < |Days(rest).deliveries| && !IsOpen(Days(rest).deliveries[i].status) {
      EndedBySomeone(rest, i);
      EndedIsFinal(rest, [ops[n]], i);
      var k :| 0 <= k < |rest| && Ends(Days(rest[..k]), rest[k], i, Days(rest).deliveries[i].status);
      assert ops[..k] == rest[..k] && ops[k] == rest[k];
    } else {
      StepEnds(Days(rest), ops[n], i);
      assert ops[..n] == rest;
    }
  }

  lemma NothingAtFirst(ops: seq<Op>)
    ensures ops == [] ==> Days(ops).deliveries == []
  {
  }
}
