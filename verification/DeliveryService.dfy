/**
 The delivery and run services over their tables, in place. A refused request rolls its writes back;
 a wrong code's count is committed first and stays.
 */
module DeliveryService {
  import opened Seqs
  import opened Deliveries
  import opened DeliveryProofs

  ghost predicate Matches(before: Depot, spec: Result<Depot, Error>, error: Option<Error>, after: Depot) {
    match spec
    case Ok(t) => error == None && after == t
    case Err(e) => error == Some(e) && after == before
  }

  lemma StepIs(s: Depot, op: Op, spec: Result<Depot, Error>)
    requires Known(s, op) && Step(s, op) == Kept(s, spec)
    ensures Inv(s) ==> Inv(Kept(s, spec))
  {
    hide Inv, Step;
    if Inv(s) { StepKeeps(s, op); }
  }

  class Service {
    var deliveries: seq<Delivery>
    var runs: seq<Run>
    var tickets: seq<Ticket>

    function State(): Depot
      reads this
    {
      Depot(deliveries, runs, tickets)
    }

    /** Every reachable depot is; each method keeps it so. */
    ghost predicate Valid()
      reads this
    {
      Inv(State())
    }

    /** `_apply`: status, version and history move together. */
    method Apply(i: nat, target: Status)
      requires i < |deliveries|
      modifies `deliveries
      ensures deliveries == old(deliveries)[i := Moved(old(deliveries)[i], target)]
    {
      var d := deliveries[i];
      deliveries := deliveries[i := d.(status := target)];
      deliveries := deliveries[i := deliveries[i].(version := d.version + 1)];
      deliveries := deliveries[i := deliveries[i].(history := d.history + [Change(Some(d.status), target)])];
    }

    method PlanForOrder(order: nat)
      modifies `deliveries
      ensures State() == Deliveries.PlanForOrder(old(State()), order)
      ensures old(Valid()) ==> Valid()
    {
      hide Inv;
      StepIs(State(), OpPlan(order), Ok(Deliveries.PlanForOrder(State(), order)));
      if HasOpen(deliveries, order) { return; }
      var attempts := MaxAttempt(deliveries, order);
      deliveries := deliveries + [NewDelivery(order, attempts + 1)];
    }

    method Assign(i: nat, courier: nat, eligible: bool, expected: nat) returns (error: Option<Error>)
      requires i < |deliveries|
      modifies `deliveries
      ensures Matches(old(State()), Deliveries.Assign(old(State()), i, courier, eligible, expected), error, State())
      ensures old(Valid()) ==> Valid()
    {
      hide Inv;
      StepIs(State(), OpAssign(i, courier, eligible, expected),
             Deliveries.Assign(State(), i, courier, eligible, expected));
      var d := deliveries[i];
      if d.version != expected { return Some(VersionConflict); }
      if d.status !in Sources(DoAssign) { return Some(InvalidTransition); }
      if !eligible { return Some(NotACourier); }
      deliveries := deliveries[i := d.(courier := Some(courier))];
      Apply(i, Assigned);
      error := None;
    }

    method Unassign(i: nat, expected: nat) returns (error: Option<Error>)
      requires i < |deliveries|
      modifies `deliveries
      ensures Matches(old(State()), Deliveries.Unassign(old(State()), i, expected), error, State())
      ensures old(Valid()) ==> Valid()
    {
      hide Inv;
      StepIs(State(), OpUnassign(i, expected), Deliveries.Unassign(State(), i, expected));
      var d := deliveries[i];
      if d.version != expected { return Some(VersionConflict); }
      if d.status !in Sources(DoUnassign) { return Some(InvalidTransition); }
      if d.run.Some? && d.run.value < |runs| && runs[d.run.value].status != Draft { return Some(RunNotEditable); }
      deliveries := deliveries[i := OffRun(d).(courier := None)];
      Apply(i, Planned);
      error := None;
    }

    method Cancel(i: nat, expected: nat) returns (error: Option<Error>)
      requires i < |deliveries|
      modifies `deliveries
      ensures Matches(old(State()), Deliveries.Cancel(old(State()), i, expected), error, State())
      ensures old(Valid()) ==> Valid()
    {
      hide Inv;
      StepIs(State(), OpCancel(i, expected), Deliveries.Cancel(State(), i, expected));
      var d := deliveries[i];
      if d.version != expected { return Some(VersionConflict); }
      if d.status !in Sources(DoCancel) { return Some(InvalidTransition); }
      deliveries := deliveries[i := OffRun(d)];
      Apply(i, Cancelled);
      error := None;
    }

    /** Nothing to cancel is no error; a delivery on the road is one. */
    method CancelForOrder(order: nat) returns (error: Option<Error>)
      modifies `deliveries
      ensures Matches(old(State()), Deliveries.CancelForOrder(old(State()), order), error, State())
      ensures old(Valid()) ==> Valid()
    {
      hide Inv;
      StepIs(State(), OpCancelForOrder(order), Deliveries.CancelForOrder(State(), order));
      var i := LiveRow(deliveries, order);
      if i == |deliveries| { return None; }
      if OnTheRoad(deliveries[i].status) { return Some(InvalidTransition); }
      deliveries := deliveries[i := OffRun(deliveries[i])];
      Apply(i, Cancelled);
      error := None;
    }

    method Arrive(a: Actor, i: nat) returns (error: Option<Error>)
      requires i < |deliveries|
      modifies `deliveries
      ensures Matches(old(State()), Deliveries.Arrive(old(State()), a, i), error, State())
      ensures old(Valid()) ==> Valid()
    {
      hide Inv;
      StepIs(State(), OpArrive(a, i), Deliveries.Arrive(State(), a, i));
      error := MayAct(a, deliveries[i]);
      if error.Some? { return; }
      if deliveries[i].status !in Sources(DoArrive) { return Some(InvalidTransition); }
      Apply(i, Arrived);
    }

    method ManualConfirm(i: nat, reasonLength: nat, accepted: bool) returns (error: Option<Error>)
      requires i < |deliveries|
      modifies `deliveries
      ensures Matches(old(State()), Deliveries.ManualConfirm(old(State()), i, reasonLength, accepted), error, State())
      ensures old(Valid()) ==> Valid()
    {
      hide Inv;
      StepIs(State(), OpManual(i, reasonLength, accepted),
             Deliveries.ManualConfirm(State(), i, reasonLength, accepted));
      if reasonLength < MANUAL_REASON_MIN { return Some(ValidationError); }
      if deliveries[i].status !in Sources(DoDeliver) { return Some(InvalidTransition); }
      if !accepted { return Some(Refused); }
      deliveries := deliveries[i := deliveries[i].(confirmation := Some(ByOverride))];
      Apply(i, Delivered);
      error := None;
    }

    method Fail(a: Actor, i: nat, reasonGiven: bool, accepted: bool) returns (error: Option<Error>)
      requires i < |deliveries|
      modifies `deliveries
      ensures Matches(old(State()), Deliveries.Fail(old(State()), a, i, reasonGiven, accepted), error, State())
      ensures old(Valid()) ==> Valid()
    {
      hide Inv;
      StepIs(State(), OpFail(a, i, reasonGiven, accepted), Deliveries.Fail(State(), a, i, reasonGiven, accepted));
      if !reasonGiven { return Some(ValidationError); }
      error := MayAct(a, deliveries[i]);
      if error.Some? { return; }
      if deliveries[i].status !in Sources(DoFail) { return Some(InvalidTransition); }
      if !accepted { return Some(Refused); }
      Apply(i, Failed);
    }

    method Dispatch(a: Actor, i: nat, code: int, accepted: bool) returns (error: Option<Error>)
      requires i < |deliveries|
      modifies `deliveries
      ensures Matches(old(State()), Deliveries.Dispatch(old(State()), a, i, code, accepted), error, State())
      ensures old(Valid()) ==> Valid()
    {
      hide Inv;
      StepIs(State(), OpDispatch(a, i, code, accepted), Deliveries.Dispatch(State(), a, i, code, accepted));
      var d := deliveries[i];
      error := MayAct(a, d);
      if error.Some? { return; }
      if d.status !in Sources(DoDispatch) { return Some(InvalidTransition); }
      if !accepted { return Some(Refused); }
      deliveries := deliveries[i := Mint(d, code)];
      Apply(i, InTransit);
    }

    method SpendAttempt(a: Actor, i: nat, code: int) returns (error: Option<Error>)
      requires i < |deliveries|
      modifies `deliveries, `tickets
      ensures (State(), error) == Deliveries.SpendAttempt(old(State()), a, i, code)
      ensures old(Valid()) ==> Valid()
    {
      hide Inv;
      StepIs(State(), OpSpend(a, i, code), Ok(Deliveries.SpendAttempt(State(), a, i, code).0));
      var d := deliveries[i];
      error := MayAct(a, d);
      if error.Some? { return; }
      if d.status !in Sources(DoDeliver) { return Some(InvalidTransition); }
      if d.codeLocked { return Some(CodeIsLocked); }
      if d.code == Some(code) {
        tickets := tickets + [Ticket(a, i, code, |d.log|)];
        return None;
      }
      d := d.(codeAttempts := d.codeAttempts + 1, log := d.log + [WrongCode]);
      d := d.(codeLocked := d.codeAttempts >= MAX_ATTEMPTS);
      deliveries := deliveries[i := d];
      error := Some(if d.codeLocked then CodeIsLocked else CodeIsInvalid);
    }

    method Confirm(t: Ticket, accepted: bool) returns (error: Option<Error>)
      requires t.row < |deliveries|
      modifies `deliveries
      ensures Matches(old(State()), Deliveries.Confirm(old(State()), t, accepted), error, State())
      ensures t in tickets && old(Valid()) ==> Valid()
    {
      hide Inv;
      if k: nat :| k < |tickets| && tickets[k] == t {
        StepIs(State(), OpConfirm(k, accepted), Deliveries.Confirm(State(), t, accepted));
      }
      var d := deliveries[t.row];
      error := MayAct(t.actor, d);
      if error.Some? { return; }
      if d.status !in Sources(DoDeliver) { return Some(InvalidTransition); }
      if d.codeLocked { return Some(CodeIsLocked); }
      if d.code != Some(t.code) { return Some(CodeIsInvalid); }
      if !accepted { return Some(Refused); }
      deliveries := deliveries[t.row := d.(confirmation := Some(ByCode))];
      Apply(t.row, Delivered);
    }

    method RegenerateCode(i: nat, code: int) returns (error: Option<Error>)
      requires i < |deliveries|
      modifies `deliveries
      ensures Matches(old(State()), Deliveries.RegenerateCode(old(State()), i, code), error, State())
      ensures old(Valid()) ==> Valid()
    {
      hide Inv;
      StepIs(State(), OpRegenerate(i, code), Deliveries.RegenerateCode(State(), i, code));
      if !OnTheRoad(deliveries[i].status) { return Some(InvalidTransition); }
      var d := Mint(deliveries[i], code);
      deliveries := deliveries[i := d.(version := d.version + 1)];
      error := None;
    }

    // -------------------------------------------------------------- the stop list

    /** Takes the stops of the run that are not on the list off it. */
    method DropStops(run: nat, ids: seq<nat>)
      modifies `deliveries
      ensures deliveries == DropOthers(old(deliveries), run, ids)
    {
      hide Sort, Filter, DropOthers;
      ghost var ds := deliveries;
      var stops := RunStops(deliveries, run);
      forall i: nat ensures i in stops <==> i < |ds| && ds[i].run == Some(run) { RunStopsAre(ds, run, i); }
      for k := 0 to |stops|
        invariant |deliveries| == |ds|
        invariant forall i :: 0 <= i < |ds| ==>
                    deliveries[i] == if i in stops[..k] && i !in ids then DropRow(ds[i]) else ds[i]
      {
        var i := stops[k];
        if i !in ids {
          assert i in stops;
          ghost var was := deliveries[i];
          deliveries := deliveries[i := OffRun(deliveries[i])];
          if deliveries[i].status == Assigned {
            Apply(i, Planned);
            deliveries := deliveries[i := deliveries[i].(courier := None)];
          }
          assert deliveries[i] == DropRow(was);
        }
      }
      assert stops[..|stops|] == stops;
      DropIs(ds, run, ids, deliveries);
    }

    /** Frees the sequence numbers, so that no two stops share one during a reorder. */
    method ClearPlaces(run: nat)
      modifies `deliveries
      ensures |deliveries| == |old(deliveries)|
      ensures forall i :: 0 <= i < |deliveries| ==>
                deliveries[i] == if old(deliveries)[i].run == Some(run)
                                then old(deliveries)[i].(stop := None) else old(deliveries)[i]
    {
      hide Sort, Filter;
      ghost var ds := deliveries;
      var stops := RunStops(deliveries, run);
      forall i: nat ensures i in stops <==> i < |ds| && ds[i].run == Some(run) { RunStopsAre(ds, run, i); }
      for k := 0 to |stops|
        invariant |deliveries| == |ds|
        invariant forall i :: 0 <= i < |ds| ==> deliveries[i] == if i in stops[..k] then ds[i].(stop := None) else ds[i]
      {
        var i := stops[k];
        assert i in stops;
        deliveries := deliveries[i := deliveries[i].(stop := None)];
      }
      assert stops[..|stops|] == stops;
    }

    /** Puts the listed deliveries on the run, one by one, until one cannot go. */
    method PlaceStops(run: nat, ids: seq<nat>) returns (error: Option<Error>)
      requires run < |runs| && Distinct(ids)
      modifies `deliveries
      ensures error == FirstPlaceError(old(deliveries), run, runs[run].courier, ids)
      ensures error == None ==> deliveries == PlaceAll(old(deliveries), run, runs[run].courier, ids)
    {
      hide PlaceAll;
      ghost var ds := deliveries;
      var courier := runs[run].courier;
      for k := 0 to |ids|
        invariant |deliveries| == |ds|
        invariant FirstPlaceError(ds, run, courier, ids[..k]) == None
        invariant forall i :: 0 <= i < |ds| ==>
                    deliveries[i] == if i in ids[..k] then PlaceRow(ds[i], run, courier, Position(ids, i)) else ds[i]
      {
        assert ids[..k + 1][..k] == ids[..k];
        var id := ids[k];
        assert id < |ds| ==> deliveries[id] == ds[id];
        error := PlaceError(deliveries, run, courier, id);
        assert error == PlaceError(ds, run, courier, id);
        if error.Some? {
          ErrorStays(ds, run, courier, ids, k + 1);
          return;
        }
        deliveries := deliveries[id := deliveries[id].(run := Some(run), stop := Some(k + 1))];
        if deliveries[id].status == Planned {
          deliveries := deliveries[id := deliveries[id].(courier := Some(courier))];
          Apply(id, Assigned);
        }
        assert Position(ids, id) == k + 1;
        assert deliveries[id] == PlaceRow(ds[id], run, courier, k + 1);
      }
      assert ids[..|ids|] == ids;
      error := None;
      PlaceIs(ds, run, courier, ids, deliveries);
    }

    method SetStops(run: nat, ids: seq<nat>) returns (error: Option<Error>)
      requires run < |runs|
      modifies `deliveries
      ensures Matches(old(State()), Deliveries.SetStops(old(State()), run, ids), error, State())
    {
      hide DropOthers, PlaceAll, FirstPlaceError, RunStops;
      var before := deliveries;
      DistinctByCount(ids);
      if |Elements(ids)| != |ids| { return Some(ValidationError); }
      DropStops(run, ids);
      ghost var dropped := deliveries;
      ClearPlaces(run);
      ClearedPlaces(before, run, runs[run].courier, ids, dropped, deliveries);
      error := PlaceStops(run, ids);
      if error.Some? { deliveries := before; }
    }

    // -------------------------------------------------------------- runs

    method CreateRun(courier: nat, eligible: bool, ids: seq<nat>) returns (error: Option<Error>)
      modifies `deliveries, `runs
      ensures Matches(old(State()), Deliveries.CreateRun(old(State()), courier, eligible, ids), error, State())
      ensures old(Valid()) ==> Valid()
    {
      hide Inv;
      StepIs(State(), OpCreateRun(courier, eligible, ids), Deliveries.CreateRun(State(), courier, eligible, ids));
      hide Deliveries.SetStops;
      if ids == [] { return Some(ValidationError); }
      if !eligible { return Some(NotACourier); }
      var before := runs;
      runs := runs + [Run(courier, Draft, 1)];
      SetStopsRuns(State(), |before|, ids);
      error := SetStops(|before|, ids);
      if error.Some? { runs := before; }
    }

    method UpdateRun(r: nat, ids: seq<nat>, expected: nat) returns (error: Option<Error>)
      requires r < |runs|
      modifies `deliveries, `runs
      ensures Matches(old(State()), Deliveries.UpdateRun(old(State()), r, ids, expected), error, State())
      ensures old(Valid()) ==> Valid()
    {
      hide Inv;
      StepIs(State(), OpUpdateRun(r, ids, expected), Deliveries.UpdateRun(State(), r, ids, expected));
      hide Deliveries.SetStops;
      if runs[r].status != Draft { return Some(RunNotEditable); }
      if runs[r].version != expected { return Some(VersionConflict); }
      SetStopsRuns(State(), r, ids);
      error := SetStops(r, ids);
      if error == None { runs := runs[r := runs[r].(version := runs[r].version + 1)]; }
    }

    /** Dispatches the assigned stops in order, until one cannot leave. */
    method DispatchStops(a: Actor, stops: seq<nat>, codes: nat -> int, refused: set<nat>) returns (error: Option<Error>)
      requires Distinct(stops) && forall k :: 0 <= k < |stops| ==> stops[k] < |deliveries|
      modifies `deliveries
      ensures error == FirstDispatchError(old(deliveries), a, stops, refused)
      ensures error == None ==> deliveries == DispatchAll(old(deliveries), stops, codes)
    {
      hide DispatchAll, Mint, Moved, FirstDispatchError;
      ghost var ds := deliveries;
      NoDispatchError(ds, a, stops, refused);
      for k := 0 to |stops|
        invariant |deliveries| == |ds|
        invariant FirstDispatchError(ds, a, stops[..k], refused) == None
        invariant forall i :: 0 <= i < |ds| ==>
            deliveries[i] == if i in stops[..k] then Left(ds[i], codes(i)) else ds[i]
      {
        var i := stops[k];
        NextDispatchError(ds, a, stops, refused, k);
        assert i in stops && deliveries[i] == ds[i];
        if deliveries[i].status == Assigned {
          error := Dispatch(a, i, codes(i), i !in refused);
          if error.Some? {
            DispatchErrorStays(ds, a, stops, refused, k + 1);
            return;
          }
        }
      }
      assert stops[..|stops|] == stops;
      DispatchIs(ds, stops, codes, deliveries);
      error := None;
    }

    method StartRun(a: Actor, r: nat, codes: nat -> int, refused: set<nat>) returns (error: Option<Error>)
      requires r < |runs|
      modifies `deliveries, `runs
      ensures Matches(old(State()), Deliveries.StartRun(old(State()), a, r, codes, refused), error, State())
      ensures old(Valid()) ==> Valid()
    {
      hide Inv;
      StepIs(State(), OpStart(a, r, codes, refused), Deliveries.StartRun(State(), a, r, codes, refused));
      hide RunStops, DispatchAll, FirstDispatchError;
      error := MayDrive(a, runs[r]);
      if error.Some? { return; }
      if runs[r].status != Draft { return Some(InvalidTransition); }
      var before := deliveries;
      var stops := RunStops(deliveries, r);
      if stops == [] { return Some(ValidationError); }
      RunStopsDistinct(deliveries, r);
      StopsExist(deliveries, r);
      error := DispatchStops(a, stops, codes, refused);
      if error.Some? {
        deliveries := before;
      } else {
        runs := runs[r := Bumped(runs[r], Started)];
      }
    }

    /** The loop over the run's stops looks for one that is still open. */
    method StopOpen(r: nat) returns (found: bool)
      ensures found <==>
        exists i :: 0 <= i < |deliveries| && deliveries[i].run == Some(r) && IsOpen(deliveries[i].status)
    {
      hide RunStops, IsOpen;
      var stops := RunStops(deliveries, r);
      for k := 0 to |stops|
        invariant forall m :: 0 <= m < k ==> stops[m] < |deliveries| && !IsOpen(deliveries[stops[m]].status)
      {
        assert stops[k] in stops;
        RunStopsAre(deliveries, r, stops[k]);
        if IsOpen(deliveries[stops[k]].status) { return true; }
      }
      forall i: nat | i < |deliveries| && deliveries[i].run == Some(r) ensures !IsOpen(deliveries[i].status) {
        RunStopsAre(deliveries, r, i);
      }
      found := false;
    }

    method FinishRun(a: Actor, r: nat) returns (error: Option<Error>)
      requires r < |runs|
      modifies `runs
      ensures Matches(old(State()), Deliveries.FinishRun(old(State()), a, r), error, State())
      ensures old(Valid()) ==> Valid()
    {
      hide Inv;
      StepIs(State(), OpFinish(a, r), Deliveries.FinishRun(State(), a, r));
      error := MayDrive(a, runs[r]);
      if error.Some? { return; }
      if runs[r].status != Started { return Some(InvalidTransition); }
      var found := StopOpen(r);
      if found { return Some(InvalidTransition); }
      runs := runs[r := Bumped(runs[r], Finished)];
      error := None;
    }

    method CancelRun(r: nat) returns (error: Option<Error>)
      requires r < |runs|
      modifies `deliveries, `runs
      ensures Matches(old(State()), Deliveries.CancelRun(old(State()), r), error, State())
      ensures old(Valid()) ==> Valid()
    {
      hide Inv;
      StepIs(State(), OpCancelRun(r), Deliveries.CancelRun(State(), r));
      hide DropOthers;
      if runs[r].status != Draft { return Some(RunNotEditable); }
      DropStops(r, []);
      runs := runs[r := Bumped(runs[r], Dropped)];
      error := None;
    }
  }

  function Elements(ids: seq<nat>): set<nat> { set x | x in ids }

  /** A list repeats nothing exactly when its set is as large as itself. */
  lemma {:induction false} DistinctByCount(ids: seq<nat>)
    ensures |Elements(ids)| <= |ids|
    ensures Distinct(ids) <==> |Elements(ids)| == |ids|
  {
    if ids != [] {
      var rest, last := ids[..|ids| - 1], ids[|ids| - 1];
      DistinctByCount(rest);
      assert ids == rest + [last];
      assert Elements(ids) == Elements(rest) + {last};
      if last in rest {
        var k :| 0 <= k < |rest| && rest[k] == last;
        assert ids[k] == ids[|ids| - 1];
      } else {
        assert Distinct(rest) ==> Distinct(ids);
        assert Distinct(ids) ==> Distinct(rest);
      }
    }
  }

  lemma DropIs(ds: seq<Delivery>, run: nat, ids: seq<nat>, es: seq<Delivery>)
    requires |es| == |ds|
    requires forall i :: 0 <= i < |ds| ==>
        es[i] == if ds[i].run == Some(run) && i !in ids then DropRow(ds[i]) else ds[i]
    ensures es == DropOthers(ds, run, ids)
  {
  }

  lemma PlaceIs(ds: seq<Delivery>, run: nat, courier: nat, ids: seq<nat>, es: seq<Delivery>)
    requires |es| == |ds|
    requires forall i :: 0 <= i < |ds| ==>
        es[i] == if i in ids then PlaceRow(ds[i], run, courier, Position(ids, i)) else ds[i]
    ensures es == PlaceAll(ds, run, courier, ids)
  {
  }

  lemma StopsExist(ds: seq<Delivery>, r: nat)
    ensures forall k :: 0 <= k < |RunStops(ds, r)| ==> RunStops(ds, r)[k] < |ds|
  {
    hide RunStops;
    forall k | 0 <= k < |RunStops(ds, r)| ensures RunStops(ds, r)[k] < |ds| { RunStopsAre(ds, r, RunStops(ds, r)[k]); }
  }

  /** A stop of a run that starts. */
  function Left(d: Delivery, code: int): Delivery {
    if d.status == Assigned then Moved(Mint(d, code), InTransit) else d
  }

  lemma NoDispatchError(ds: seq<Delivery>, a: Actor, stops: seq<nat>, refused: set<nat>)
    ensures FirstDispatchError(ds, a, stops[..0], refused) == None
  {
  }

  lemma NextDispatchError(ds: seq<Delivery>, a: Actor, stops: seq<nat>, refused: set<nat>, k: nat)
    requires k < |stops| && FirstDispatchError(ds, a, stops[..k], refused) == None
    ensures FirstDispatchError(ds, a, stops[..k + 1], refused) == DispatchError(ds, a, stops[k], refused)
  {
    assert stops[..k + 1][..k] == stops[..k];
  }

  lemma DispatchIs(ds: seq<Delivery>, stops: seq<nat>, codes: nat -> int, es: seq<Delivery>)
    requires |es| == |ds|
    requires forall i :: 0 <= i < |ds| ==> es[i] == if i in stops then Left(ds[i], codes(i)) else ds[i]
    ensures es == DispatchAll(ds, stops, codes)
  {
  }

  /** The first error is the answer whatever comes after it. */
  lemma {:induction false} ErrorStays(ds: seq<Delivery>, run: nat, courier: nat, ids: seq<nat>, k: nat)
    requires k <= |ids| && FirstPlaceError(ds, run, courier, ids[..k]).Some?
    ensures FirstPlaceError(ds, run, courier, ids) == FirstPlaceError(ds, run, courier, ids[..k])
  {
    hide PlaceError;
    if k == |ids| {
      assert ids[..k] == ids;
    } else {
      assert ids[..|ids| - 1][..k] == ids[..k];
      ErrorStays(ds, run, courier, ids[..|ids| - 1], k);
    }
  }

  lemma {:induction false} DispatchErrorStays(ds: seq<Delivery>, a: Actor, stops: seq<nat>, refused: set<nat>, k: nat)
    requires k <= |stops| && FirstDispatchError(ds, a, stops[..k], refused).Some?
    ensures FirstDispatchError(ds, a, stops, refused) == FirstDispatchError(ds, a, stops[..k], refused)
  {
    hide DispatchRow;
    if k == |stops| {
      assert stops[..k] == stops;
    } else {
      assert stops[..|stops| - 1][..k] == stops[..k];
      DispatchErrorStays(ds, a, stops[..|stops| - 1], refused, k);
    }
  }

  /** Freed sequence numbers change neither which stops can be placed nor the result of placing them. */
  lemma ClearedPlaces(before: seq<Delivery>, run: nat, courier: nat, ids: seq<nat>,
                      ds: seq<Delivery>, es: seq<Delivery>)
    requires ds == DropOthers(before, run, ids) && |es| == |ds|
    requires forall i :: 0 <= i < |ds| ==> es[i] == if ds[i].run == Some(run) then ds[i].(stop := None) else ds[i]
    ensures FirstPlaceError(es, run, courier, ids) == FirstPlaceError(ds, run, courier, ids)
    ensures PlaceAll(es, run, courier, ids) == PlaceAll(ds, run, courier, ids)
  {
    hide Position, PlaceRow, DropOthers, FirstPlaceError;
    SameErrors(ds, es, run, courier, ids);
    DroppedAreOff(before, run, ids);
    forall i | 0 <= i < |ds| ensures PlaceAll(es, run, courier, ids)[i] == PlaceAll(ds, run, courier, ids)[i] {
      PlaceIgnoresPlace(ds[i], run, courier, Position(ids, i));
    }
  }

  lemma PlaceIgnoresPlace(d: Delivery, run: nat, courier: nat, position: nat)
    ensures PlaceRow(d.(stop := None), run, courier, position) == PlaceRow(d, run, courier, position)
  {
  }

  lemma DroppedAreOff(ds: seq<Delivery>, run: nat, ids: seq<nat>)
    ensures forall i :: 0 <= i < |ds| && i !in ids ==> DropOthers(ds, run, ids)[i].run != Some(run)
  {
  }

  lemma {:induction false} SameErrors(ds: seq<Delivery>, es: seq<Delivery>, run: nat, courier: nat, ids: seq<nat>)
    requires |es| == |ds|
    requires forall i :: 0 <= i < |ds| ==> es[i] == if ds[i].run == Some(run) then ds[i].(stop := None) else ds[i]
    ensures FirstPlaceError(es, run, courier, ids) == FirstPlaceError(ds, run, courier, ids)
  {
    if ids != [] { SameErrors(ds, es, run, courier, ids[..|ids| - 1]); }
  }

  lemma SetStopsRuns(s: Depot, run: nat, ids: seq<nat>)
    requires run < |s.runs|
    ensures SetStops(s, run, ids).Ok? ==> SetStops(s, run, ids).value.runs == s.runs
  {
  }
}
