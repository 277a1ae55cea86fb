/**
 Deliveries and courier runs of one company. A row carries its own status history and the log of what
 happened to its handover code; every function below is one transaction of the service.
 */
module Deliveries {
  import opened Seqs

  datatype Status = Planned | Assigned | InTransit | Arrived | Delivered | Failed | Cancelled

  datatype Action = DoAssign | DoUnassign | DoDispatch | DoArrive | DoDeliver | DoFail | DoCancel

  datatype RunStatus = Draft | Started | Finished | Dropped

  datatype Method = ByCode | ByOverride

  datatype Change = Change(from: Option<Status>, to: Status)

  /** What happens to a code: it is minted, or a wrong one is tried and counted. */
  datatype CodeEvent = Minted(code: int) | WrongCode

  datatype Delivery = Delivery(
    order: nat, attemptNo: nat, status: Status,
    courier: Option<nat>, run: Option<nat>, stop: Option<nat>,
    version: nat, history: seq<Change>,
    code: Option<int>, codeAttempts: nat, codeLocked: bool, log: seq<CodeEvent>,
    confirmation: Option<Method>)

  datatype Run = Run(courier: nat, status: RunStatus, version: nat)

  /** A code confirmation between its two transactions; `seen` is how much of the log the first one saw. */
  datatype Ticket = Ticket(actor: Actor, row: nat, code: int, seen: nat)

  datatype Actor = Actor(user: nat, actAny: bool, actOwn: bool)

  datatype Depot = Depot(deliveries: seq<Delivery>, runs: seq<Run>, tickets: seq<Ticket>)

  datatype Error =
    | NotFound | VersionConflict | InvalidTransition | NotACourier | RunNotEditable | PermissionDenied
    | CourierNotAssigned | CodeIsLocked | CodeIsInvalid | Refused | ValidationError

  const MAX_ATTEMPTS := 5
  const MANUAL_REASON_MIN := 10

  // ---------------------------------------------------------------- transitions

  function Sources(a: Action): set<Status> {
    match a
    case DoAssign => {Planned}
    case DoUnassign => {Assigned}
    case DoDispatch => {Assigned}
    case DoArrive => {InTransit}
    case DoDeliver => {InTransit, Arrived}
    case DoFail => {InTransit, Arrived}
    case DoCancel => {Planned, Assigned}
  }

  function Target(a: Action): Status {
    match a
    case DoAssign => Assigned
    case DoUnassign => Planned
    case DoDispatch => InTransit
    case DoArrive => Arrived
    case DoDeliver => Delivered
    case DoFail => Failed
    case DoCancel => Cancelled
  }

  predicate IsOpen(x: Status) { x in {Planned, Assigned, InTransit, Arrived} }

  predicate OnTheRoad(x: Status) { x in {InTransit, Arrived} }

  function Moved(d: Delivery, target: Status): Delivery {
    d.(status := target, version := d.version + 1, history := d.history + [Change(Some(d.status), target)])
  }

  function MayAct(a: Actor, d: Delivery): Option<Error> {
    if a.actAny then None
    else if !a.actOwn then Some(PermissionDenied)
    else if d.courier != Some(a.user) then Some(CourierNotAssigned)
    else None
  }

  function MayDrive(a: Actor, run: Run): Option<Error> {
    if a.actAny then None
    else if !a.actOwn || run.courier != a.user then Some(CourierNotAssigned)
    else None
  }

  // ---------------------------------------------------------------- one delivery

  function OffRun(d: Delivery): Delivery { d.(run := None, stop := None) }

  function Mint(d: Delivery, code: int): Delivery {
    d.(code := Some(code), codeAttempts := 0, codeLocked := false, log := d.log + [Minted(code)])
  }

  function Reject(d: Delivery): Delivery {
    d.(codeAttempts := d.codeAttempts + 1, codeLocked := d.codeAttempts + 1 >= MAX_ATTEMPTS, log := d.log + [WrongCode])
  }

  function NewDelivery(order: nat, attemptNo: nat): Delivery {
    Delivery(order, attemptNo, Planned, None, None, None, 1, [Change(None, Planned)], None, 0, false, [], None)
  }

  function DispatchRow(a: Actor, d: Delivery, code: int, accepted: bool): Result<Delivery, Error> {
    var e := MayAct(a, d);
    if e.Some? then Err(e.value)
    else if d.status !in Sources(DoDispatch) then Err(InvalidTransition)
    else if !accepted then Err(Refused)
    else Ok(Moved(Mint(d, code), Target(DoDispatch)))
  }

  function CompleteRow(d: Delivery, method_: Method, accepted: bool): Result<Delivery, Error> {
    if !accepted then Err(Refused) else Ok(Moved(d.(confirmation := Some(method_)), Target(DoDeliver)))
  }

  function Saved(s: Depot, i: nat, r: Result<Delivery, Error>): Result<Depot, Error>
    requires i < |s.deliveries|
  {
    match r
    case Ok(d) => Ok(s.(deliveries := s.deliveries[i := d]))
    case Err(e) => Err(e)
  }

  // ---------------------------------------------------------------- DeliveryService

  predicate HasOpen(ds: seq<Delivery>, order: nat) {
    exists i :: 0 <= i < |ds| && ds[i].order == order && IsOpen(ds[i].status)
  }

  /** `max(attempt_no)`, nothing counting as 0. */
  function MaxAttempt(ds: seq<Delivery>, order: nat): nat {
    if ds == [] then 0
    else
      var rest := MaxAttempt(ds[..|ds| - 1], order);
      var d := ds[|ds| - 1];
      if d.order == order && d.attemptNo > rest then d.attemptNo else rest
  }

  /** A second live delivery of an order is silently not planned. */
  function PlanForOrder(s: Depot, order: nat): Depot {
    if HasOpen(s.deliveries, order) then s
    else s.(deliveries := s.deliveries + [NewDelivery(order, MaxAttempt(s.deliveries, order) + 1)])
  }

  /** The order's live delivery, `|ds|` when it has none. */
  function LiveRow(ds: seq<Delivery>, order: nat): (i: nat)
    ensures i <= |ds|
    ensures i < |ds| ==> ds[i].order == order && IsOpen(ds[i].status)
  {
    if ds == [] then 0
    else
      var i := LiveRow(ds[..|ds| - 1], order);
      var d := ds[|ds| - 1];
      if i < |ds| - 1 then i else if d.order == order && IsOpen(d.status) then |ds| - 1 else |ds|
  }

  function CancelForOrder(s: Depot, order: nat): Result<Depot, Error> {
    var i := LiveRow(s.deliveries, order);
    if i == |s.deliveries| then Ok(s)
    else if OnTheRoad(s.deliveries[i].status) then Err(InvalidTransition)
    else Saved(s, i, Ok(Moved(OffRun(s.deliveries[i]), Cancelled)))
  }

  function Assign(s: Depot, i: nat, courier: nat, eligible: bool, expected: nat): Result<Depot, Error>
    requires i < |s.deliveries|
  {
    var d := s.deliveries[i];
    if d.version != expected then Err(VersionConflict)
    else if d.status !in Sources(DoAssign) then Err(InvalidTransition)
    else if !eligible then Err(NotACourier)
    else Saved(s, i, Ok(Moved(d.(courier := Some(courier)), Target(DoAssign))))
  }

  function Unassign(s: Depot, i: nat, expected: nat): Result<Depot, Error>
    requires i < |s.deliveries|
  {
    var d := s.deliveries[i];
    if d.version != expected then Err(VersionConflict)
    else if d.status !in Sources(DoUnassign) then Err(InvalidTransition)
    else if d.run.Some? && d.run.value < |s.runs| && s.runs[d.run.value].status != Draft then Err(RunNotEditable)
    else Saved(s, i, Ok(Moved(OffRun(d).(courier := None), Target(DoUnassign))))
  }

  function Cancel(s: Depot, i: nat, expected: nat): Result<Depot, Error>
    requires i < |s.deliveries|
  {
    var d := s.deliveries[i];
    if d.version != expected then Err(VersionConflict)
    else if d.status !in Sources(DoCancel) then Err(InvalidTransition)
    else Saved(s, i, Ok(Moved(OffRun(d), Target(DoCancel))))
  }

  function Dispatch(s: Depot, a: Actor, i: nat, code: int, accepted: bool): Result<Depot, Error>
    requires i < |s.deliveries|
  {
    Saved(s, i, DispatchRow(a, s.deliveries[i], code, accepted))
  }

  function Arrive(s: Depot, a: Actor, i: nat): Result<Depot, Error>
    requires i < |s.deliveries|
  {
    var d := s.deliveries[i];
    var e := MayAct(a, d);
    if e.Some? then Err(e.value)
    else if d.status !in Sources(DoArrive) then Err(InvalidTransition)
    else Saved(s, i, Ok(Moved(d, Target(DoArrive))))
  }

  /**
   The attempt transaction: it commits its count before it reports a wrong code, so state and error
   come back together; a right code leaves a ticket for the second transaction.
   */
  function SpendAttempt(s: Depot, a: Actor, i: nat, code: int): (Depot, Option<Error>)
    requires i < |s.deliveries|
  {
    var d := s.deliveries[i];
    var e := MayAct(a, d);
    if e.Some? then (s, e)
    else if d.status !in Sources(DoDeliver) then (s, Some(InvalidTransition))
    else if d.codeLocked then (s, Some(CodeIsLocked))
    else if d.code == Some(code) then (s.(tickets := s.tickets + [Ticket(a, i, code, |d.log|)]), None)
    else
      (s.(deliveries := s.deliveries[i := Reject(d)]),
       Some(if Reject(d).codeLocked then CodeIsLocked else CodeIsInvalid))
  }

  function Confirm(s: Depot, t: Ticket, accepted: bool): Result<Depot, Error>
    requires t.row < |s.deliveries|
  {
    var d := s.deliveries[t.row];
    var e := MayAct(t.actor, d);
    if e.Some? then Err(e.value)
    else if d.status !in Sources(DoDeliver) then Err(InvalidTransition)
    else if d.codeLocked then Err(CodeIsLocked)
    else if d.code != Some(t.code) then Err(CodeIsInvalid)
    else Saved(s, t.row, CompleteRow(d, ByCode, accepted))
  }

  function ManualConfirm(s: Depot, i: nat, reasonLength: nat, accepted: bool): Result<Depot, Error>
    requires i < |s.deliveries|
  {
    var d := s.deliveries[i];
    if reasonLength < MANUAL_REASON_MIN then Err(ValidationError)
    else if d.status !in Sources(DoDeliver) then Err(InvalidTransition)
    else Saved(s, i, CompleteRow(d, ByOverride, accepted))
  }

  function Fail(s: Depot, a: Actor, i: nat, reasonGiven: bool, accepted: bool): Result<Depot, Error>
    requires i < |s.deliveries|
  {
    var d := s.deliveries[i];
    var e := MayAct(a, d);
    if !reasonGiven then Err(ValidationError)
    else if e.Some? then Err(e.value)
    else if d.status !in Sources(DoFail) then Err(InvalidTransition)
    else if !accepted then Err(Refused)
    else Saved(s, i, Ok(Moved(d, Target(DoFail))))
  }

  function RegenerateCode(s: Depot, i: nat, code: int): Result<Depot, Error>
    requires i < |s.deliveries|
  {
    var d := s.deliveries[i];
    if !OnTheRoad(d.status) then Err(InvalidTransition)
    else Saved(s, i, Ok(Mint(d, code).(version := d.version + 1)))
  }

  // ---------------------------------------------------------------- RunService

  predicate Distinct(ids: seq<nat>) { forall a, b :: 0 <= a < b < |ids| ==> ids[a] != ids[b] }

  /** The 1-based place of `i` in the list; 0 when it is not there. */
  function Position(ids: seq<nat>, i: nat): (n: nat)
    ensures n <= |ids|
    ensures n == 0 <==> i !in ids
    ensures n > 0 ==> ids[n - 1] == i
  {
    if ids == [] then 0
    else if ids[|ids| - 1] == i then |ids|
    else Position(ids[..|ids| - 1], i)
  }

  function DropRow(d: Delivery): Delivery {
    if d.status == Assigned then Moved(OffRun(d), Planned).(courier := None) else OffRun(d)
  }

  function PlaceRow(d: Delivery, run: nat, courier: nat, position: nat): Delivery {
    var e := d.(run := Some(run), stop := Some(position));
    if d.status == Planned then Moved(e.(courier := Some(courier)), Assigned) else e
  }

  /** Everything of the run that the list leaves out goes back to the pool. */
  function DropOthers(ds: seq<Delivery>, run: nat, ids: seq<nat>): (es: seq<Delivery>)
    ensures |es| == |ds|
  {
    seq(|ds|, i requires 0 <= i < |ds| => if ds[i].run == Some(run) && i !in ids then DropRow(ds[i]) else ds[i])
  }

  function PlaceAll(ds: seq<Delivery>, run: nat, courier: nat, ids: seq<nat>): (es: seq<Delivery>)
    ensures |es| == |ds|
  {
    seq(|ds|, i requires 0 <= i < |ds| => if i in ids then PlaceRow(ds[i], run, courier, Position(ids, i)) else ds[i])
  }

  function PlaceError(ds: seq<Delivery>, run: nat, courier: nat, id: nat): Option<Error> {
    if id >= |ds| then Some(NotFound)
    else if ds[id].status !in {Planned, Assigned} then Some(InvalidTransition)
    else if ds[id].run.Some? && ds[id].run != Some(run) then Some(ValidationError)
    else if ds[id].status == Assigned && ds[id].courier != Some(courier) then Some(ValidationError)
    else None
  }

  /** The first id of the list that cannot be placed decides the error. */
  function FirstPlaceError(ds: seq<Delivery>, run: nat, courier: nat, ids: seq<nat>): Option<Error> {
    if ids == [] then None
    else
      var e := FirstPlaceError(ds, run, courier, ids[..|ids| - 1]);
      if e.Some? then e else PlaceError(ds, run, courier, ids[|ids| - 1])
  }

  function SetStops(s: Depot, run: nat, ids: seq<nat>): Result<Depot, Error>
    requires run < |s.runs|
  {
    var ds := DropOthers(s.deliveries, run, ids);
    if !Distinct(ids) then Err(ValidationError)
    else
      var e := FirstPlaceError(ds, run, s.runs[run].courier, ids);
      if e.Some? then Err(e.value)
      else Ok(s.(deliveries := PlaceAll(ds, run, s.runs[run].courier, ids)))
  }

  function CreateRun(s: Depot, courier: nat, eligible: bool, ids: seq<nat>): Result<Depot, Error> {
    if ids == [] then Err(ValidationError)
    else if !eligible then Err(NotACourier)
    else SetStops(s.(runs := s.runs + [Run(courier, Draft, 1)]), |s.runs|, ids)
  }

  function Bumped(run: Run, status: RunStatus): Run { run.(status := status, version := run.version + 1) }

  function UpdateRun(s: Depot, r: nat, ids: seq<nat>, expected: nat): Result<Depot, Error>
    requires r < |s.runs|
  {
    if s.runs[r].status != Draft then Err(RunNotEditable)
    else if s.runs[r].version != expected then Err(VersionConflict)
    else
      match SetStops(s, r, ids)
      case Ok(t) => Ok(t.(runs := t.runs[r := Bumped(t.runs[r], Draft)]))
      case Err(e) => Err(e)
  }

  function Ids(n: nat): (ids: seq<nat>) { seq(n, i => i) }

  function OnRun(ds: seq<Delivery>, run: nat): nat -> bool {
    (i: nat) => i < |ds| && ds[i].run == Some(run)
  }

  /** Stops come ordered by sequence number, then by id. */
  function StopBefore(ds: seq<Delivery>): (nat, nat) -> bool {
    (i: nat, j: nat) =>
      var a := if i < |ds| && ds[i].stop.Some? then ds[i].stop.value else 0;
      var b := if j < |ds| && ds[j].stop.Some? then ds[j].stop.value else 0;
      a < b || (a == b && i < j)
  }

  function RunStops(ds: seq<Delivery>, run: nat): seq<nat> {
    Sort(Filter(Ids(|ds|), OnRun(ds, run)), StopBefore(ds))
  }

  function DispatchError(ds: seq<Delivery>, a: Actor, i: nat, refused: set<nat>): Option<Error> {
    if i >= |ds| || ds[i].status != Assigned then None
    else
      var accepted := i !in refused;
      match DispatchRow(a, ds[i], 0, accepted) case Ok(_) => None case Err(x) => Some(x)
  }

  /** The first assigned stop that cannot leave decides the error. */
  function FirstDispatchError(ds: seq<Delivery>, a: Actor, stops: seq<nat>, refused: set<nat>): Option<Error> {
    if stops == [] then None
    else
      var e := FirstDispatchError(ds, a, stops[..|stops| - 1], refused);
      if e.Some? then e else DispatchError(ds, a, stops[|stops| - 1], refused)
  }

  function DispatchAll(ds: seq<Delivery>, stops: seq<nat>, codes: nat -> int): (es: seq<Delivery>)
    ensures |es| == |ds|
  {
    seq(|ds|, i requires 0 <= i < |ds| =>
      if i in stops && ds[i].status == Assigned then Moved(Mint(ds[i], codes(i)), InTransit) else ds[i])
  }

  function StartRun(s: Depot, a: Actor, r: nat, codes: nat -> int, refused: set<nat>): Result<Depot, Error>
    requires r < |s.runs|
  {
    var stops := RunStops(s.deliveries, r);
    var e := MayDrive(a, s.runs[r]);
    if e.Some? then Err(e.value)
    else if s.runs[r].status != Draft then Err(InvalidTransition)
    else if stops == [] then Err(ValidationError)
    else
      var f := FirstDispatchError(s.deliveries, a, stops, refused);
      if f.Some? then Err(f.value)
      else Ok(s.(deliveries := DispatchAll(s.deliveries, stops, codes),
                 runs := s.runs[r := Bumped(s.runs[r], Started)]))
  }

  function FinishRun(s: Depot, a: Actor, r: nat): Result<Depot, Error>
    requires r < |s.runs|
  {
    var e := MayDrive(a, s.runs[r]);
    if e.Some? then Err(e.value)
    else if s.runs[r].status != Started then Err(InvalidTransition)
    else if exists i :: 0 <= i < |s.deliveries| && s.deliveries[i].run == Some(r) && IsOpen(s.deliveries[i].status)
    then Err(InvalidTransition)
    else Ok(s.(runs := s.runs[r := Bumped(s.runs[r], Finished)]))
  }

  function CancelRun(s: Depot, r: nat): Result<Depot, Error>
    requires r < |s.runs|
  {
    if s.runs[r].status != Draft then Err(RunNotEditable)
    else Ok(s.(deliveries := DropOthers(s.deliveries, r, []), runs := s.runs[r := Bumped(s.runs[r], Dropped)]))
  }

  // ---------------------------------------------------------------- runs of the system

  datatype Op =
    | OpPlan(order: nat)
    | OpCancelForOrder(order: nat)
    | OpAssign(row: nat, courier: nat, eligible: bool, expected: nat)
    | OpUnassign(row: nat, expected: nat)
    | OpCancel(row: nat, expected: nat)
    | OpDispatch(actor: Actor, row: nat, code: int, accepted: bool)
    | OpArrive(actor: Actor, row: nat)
    | OpSpend(actor: Actor, row: nat, code: int)
    | OpConfirm(ticket: nat, accepted: bool)
    | OpManual(row: nat, reasonLength: nat, accepted: bool)
    | OpFail(actor: Actor, row: nat, reasonGiven: bool, accepted: bool)
    | OpRegenerate(row: nat, code: int)
    | OpCreateRun(courier: nat, eligible: bool, ids: seq<nat>)
    | OpUpdateRun(run: nat, ids: seq<nat>, expected: nat)
    | OpStart(actor: Actor, run: nat, codes: nat -> int, refused: set<nat>)
    | OpFinish(actor: Actor, run: nat)
    | OpCancelRun(run: nat)

  /** A refused transaction is rolled back. */
  function Kept(s: Depot, r: Result<Depot, Error>): Depot { if r.Ok? then r.value else s }

  predicate Known(s: Depot, op: Op) {
    match op
    case OpPlan(_) => true
    case OpCancelForOrder(_) => true
    case OpCreateRun(_, _, _) => true
    case OpConfirm(k, _) => k < |s.tickets| && s.tickets[k].row < |s.deliveries|
    case OpUpdateRun(r, _, _) => r < |s.runs|
    case OpStart(_, r, _, _) => r < |s.runs|
    case OpFinish(_, r) => r < |s.runs|
    case OpCancelRun(r) => r < |s.runs|
    case _ => op.row < |s.deliveries|
  }

  function Step(s: Depot, op: Op): Depot {
    if !Known(s, op) then s
    else
      match op
      case OpPlan(order) => PlanForOrder(s, order)
      case OpCancelForOrder(order) => Kept(s, CancelForOrder(s, order))
      case OpAssign(i, courier, eligible, expected) => Kept(s, Assign(s, i, courier, eligible, expected))
      case OpUnassign(i, expected) => Kept(s, Unassign(s, i, expected))
      case OpCancel(i, expected) => Kept(s, Cancel(s, i, expected))
      case OpDispatch(a, i, code, accepted) => Kept(s, Dispatch(s, a, i, code, accepted))
      case OpArrive(a, i) => Kept(s, Arrive(s, a, i))
      case OpSpend(a, i, code) => SpendAttempt(s, a, i, code).0
      case OpConfirm(k, accepted) => Kept(s, Confirm(s, s.tickets[k], accepted))
      case OpManual(i, reasonLength, accepted) => Kept(s, ManualConfirm(s, i, reasonLength, accepted))
      case OpFail(a, i, reasonGiven, accepted) => Kept(s, Fail(s, a, i, reasonGiven, accepted))
      case OpRegenerate(i, code) => Kept(s, RegenerateCode(s, i, code))
      case OpCreateRun(courier, eligible, ids) => Kept(s, CreateRun(s, courier, eligible, ids))
      case OpUpdateRun(r, ids, expected) => Kept(s, UpdateRun(s, r, ids, expected))
      case OpStart(a, r, codes, refused) => Kept(s, StartRun(s, a, r, codes, refused))
      case OpFinish(a, r) => Kept(s, FinishRun(s, a, r))
      case OpCancelRun(r) => Kept(s, CancelRun(s, r))
  }

  function Days(ops: seq<Op>): Depot {
    if ops == [] then Depot([], [], []) else Step(Days(ops[..|ops| - 1]), ops[|ops| - 1])
  }
}
