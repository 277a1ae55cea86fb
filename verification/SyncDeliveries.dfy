/** The queue's operations on deliveries: what a synchronised operation does, and what a refused one leaves. */
module SyncDeliveries {
  import opened Seqs
  import opened Deliveries
  import opened DeliveryProofs
  import opened DeliveryTheorems
  import opened Sync
  import DeliveryActions

  /** The deliveries, and how many payments the queue has recorded. */
  datatype World = World(depot: Depot, payments: nat)

  /**
   How the order and payment services take an operation, or the rate limiter, which comes first. The
   request may also break: before anything is committed, or at the last moment before its own commit.
   */
  datatype Answer = Yes | No | Limited | CrashFirst | CrashLast

  function OfResult(w: World, r: Result<Depot, Error>): Outcome<World> {
    match r
    case Ok(depot) => Done(w.(depot := depot), None)
    case Err(e) => Declined(w, e)
  }

  /** Both transactions of a confirmation; the first one's count survives a refusal. */
  function PerformConfirm(w: World, a: Actor, i: nat, code: int, accepted: bool): Outcome<World>
    requires i < |w.depot.deliveries|
  {
    var (depot, error) := SpendAttempt(w.depot, a, i, code);
    var spent := w.(depot := depot);
    if error.Some? then Declined(spent, error.value)
    else OfResult(spent, Confirm(depot, Ticket(a, i, code, |w.depot.deliveries[i].log|), accepted))
  }

  predicate MayTouch(w: World, a: Actor, i: nat) {
    i < |w.depot.deliveries| && (a.actAny || w.depot.deliveries[i].courier == Some(a.user))
  }

  /** What an operation commits to the database outside its own transaction: the attempt it spends. */
  function Outside(w: World, a: Actor, op: Operation): World {
    if MayTouch(w, a, op.entity) && op.kind.ConfirmOp? && op.kind.code.Some?
    then w.(depot := SpendAttempt(w.depot, a, op.entity, op.kind.code.value).0) else w
  }

  function PerformOn(w: World, a: Actor, op: Operation, answer: Answer): Outcome<World> {
    var accepted := answer == Yes;
    if answer == CrashFirst then Broken(w)
    else if answer == CrashLast then Broken(Outside(w, a, op))
    else if !MayTouch(w, a, op.entity) then Declined(w, NotFound)
    else if op.kind.ConfirmOp? then
      if op.kind.code == None then Declined(w, ValidationError)
      else if answer == Limited then Declined(w, Refused)
      else PerformConfirm(w, a, op.entity, op.kind.code.value, accepted)
    else if op.kind.ArriveOp? then OfResult(w, Arrive(w.depot, a, op.entity))
    else if op.kind.FailOp? then OfResult(w, Fail(w.depot, a, op.entity, op.kind.reasonGiven, accepted))
    else if !op.kind.amountGiven then Declined(w, ValidationError)
    else if !accepted then Declined(w, Refused)
    else Done(w.(payments := w.payments + 1), Some(w.payments))
  }

  function Perform(answers: Operation -> Answer): (World, Actor, Operation) -> Outcome<World> {
    (w: World, a: Actor, op: Operation) => PerformOn(w, a, op, answers(op))
  }

  /** What the server may show: the delivery, to its courier or to someone who may act for anyone. */
  function View(): (World, Actor, nat) -> Option<Delivery> {
    (w: World, a: Actor, i: nat) =>
      if MayTouch(w, a, i) then Some(w.depot.deliveries[i]) else None
  }

  function Deliverer(answers: Operation -> Answer): System<World, Delivery> { System(Perform(answers), View()) }

  // ---------------------------------------------------------------- ordinary steps

  function Steps(s: Depot, ops: seq<Op>): Depot {
    if ops == [] then s else Step(Steps(s, ops[..|ops| - 1]), ops[|ops| - 1])
  }

  lemma Steps1(s: Depot, op: Op)
    ensures Steps(s, [op]) == Step(s, op)
  {
  }

  lemma Steps2(s: Depot, x: Op, y: Op)
    ensures Steps(s, [x, y]) == Step(Step(s, x), y)
  {
    assert [x, y][..1] == [x];
    Steps1(s, x);
  }

  /** A synchronised operation, broken or not, is a sequence of the transactions that live requests make. */
  lemma PerformIsSteps(w: World, a: Actor, op: Operation, answer: Answer) returns (ops: seq<Op>)
    ensures PerformOn(w, a, op, answer).world.depot == Steps(w.depot, ops)
  {
    hide Steps, OnTheRoad, Moved, Reject, MayAct, PerformConfirm, SpendAttempt;
    ops := [];
    StepsNone(w.depot);
    if MayTouch(w, a, op.entity) && answer != CrashFirst {
      if op.kind.ConfirmOp? && op.kind.code.Some? {
        if answer == CrashLast {
          ops := [OpSpend(a, op.entity, op.kind.code.value)];
          Steps1(w.depot, ops[0]);
        } else if answer != Limited {
          ops := ConfirmIsSteps(w, a, op.entity, op.kind.code.value, answer == Yes);
        }
      } else if answer != CrashLast && op.kind.ArriveOp? {
        ops := [OpArrive(a, op.entity)];
        Steps1(w.depot, ops[0]);
      } else if answer != CrashLast && op.kind.FailOp? {
        ops := [OpFail(a, op.entity, op.kind.reasonGiven, answer == Yes)];
        Steps1(w.depot, ops[0]);
      }
    }
  }

  lemma StepsNone(s: Depot)
    ensures Steps(s, []) == s
  {
  }

  lemma ConfirmIsSteps(w: World, a: Actor, i: nat, code: int, accepted: bool) returns (ops: seq<Op>)
    requires i < |w.depot.deliveries|
    ensures PerformConfirm(w, a, i, code, accepted).world.depot == Steps(w.depot, ops)
  {
    hide Steps, OnTheRoad, Moved, Reject, MayAct;
    var s := w.depot;
    var (t, error) := SpendAttempt(s, a, i, code);
    if error.Some? {
      ops := [OpSpend(a, i, code)];
      Steps1(s, ops[0]);
    } else {
      ops := [OpSpend(a, i, code), OpConfirm(|s.tickets|, accepted)];
      Steps2(s, ops[0], ops[1]);
    }
  }

  /**
   When an operation is carried out, and what it then leaves: only for someone who is shown the delivery, with
   what the operation itself demands; its row, or the next payment, is all that changes.
   */
  lemma PerformOutcome(w: World, a: Actor, op: Operation, answer: Answer)
    ensures var r := PerformOn(w, a, op, answer);
            var i := op.entity;
            var shown := i < |w.depot.deliveries| && (a.actAny || w.depot.deliveries[i].courier == Some(a.user));
            && (r.Broken? <==> answer == CrashFirst || answer == CrashLast)
            && (!shown && !r.Broken? ==> r == Declined(w, NotFound))
            && (r.Done? ==> shown)
            && (shown ==>
                  var d := w.depot.deliveries[i];
                  var able := DeliveryActions.Permitted(a, d.courier);
                  match op.kind
                  case ArriveOp =>
                    && (r.Done? <==> !r.Broken? && able && d.status == InTransit)
                    && (r.Done? ==>
                          r.payment == None && r.world.payments == w.payments
                          && DeliveryActions.Becomes(w.depot, r.world.depot, i, LeftAs(d, Arrived, None)))
                  case FailOp(reasonGiven) =>
                    && (r.Done? <==> answer == Yes && reasonGiven && able && d.status in {InTransit, Arrived})
                    && (r.Done? ==>
                          r.payment == None && r.world.payments == w.payments
                          && DeliveryActions.Becomes(w.depot, r.world.depot, i, LeftAs(d, Failed, None)))
                  case ConfirmOp(code) =>
                    && (r.Done? <==>
                          answer == Yes && code.Some? && able && d.status in {InTransit, Arrived}
                          && !d.codeLocked && d.code == code)
                    && (r.Done? ==>
                          r.payment == None && r.world.payments == w.payments
                          && r.world.depot.runs == w.depot.runs
                          && r.world.depot.deliveries == w.depot.deliveries[i := LeftAs(d, Delivered, Some(ByCode))])
                  case PaymentOp(amountGiven) =>
                    && (r.Done? <==> answer == Yes && amountGiven)
                    && (r.Done? ==> r == Done(World(w.depot, w.payments + 1), Some(w.payments))))
  {
    var i := op.entity;
    if MayTouch(w, a, i) && answer != CrashFirst && answer != CrashLast {
      match op.kind
      case ArriveOp => DeliveryActions.ArriveOutcome(w.depot, a, i);
      case FailOp(reasonGiven) => DeliveryActions.FailOutcome(w.depot, a, i, reasonGiven, answer == Yes);
      case ConfirmOp(code) => if code.Some? { ConfirmDone(w, a, i, code.value, answer == Yes); }
      case PaymentOp(_) =>
    }
  }

  /** A row that moved on to `x`. */
  function LeftAs(d: Delivery, x: Status, confirmation: Option<Method>): Delivery {
    d.(status := x, version := d.version + 1, history := d.history + [Change(Some(d.status), x)],
       confirmation := if confirmation.Some? then confirmation else d.confirmation)
  }

  lemma ConfirmDone(w: World, a: Actor, i: nat, code: int, accepted: bool)
    requires i < |w.depot.deliveries|
    ensures var d := w.depot.deliveries[i];
            var r := PerformConfirm(w, a, i, code, accepted);
            && (r.Done? <==>
                  DeliveryActions.Permitted(a, d.courier) && d.status in {InTransit, Arrived} && !d.codeLocked
                  && d.code == Some(code) && accepted)
            && (r.Done? ==>
                  r.payment == None && r.world.payments == w.payments && r.world.depot.runs == w.depot.runs
                  && r.world.depot.deliveries == w.depot.deliveries[i := LeftAs(d, Delivered, Some(ByCode))])
  {
    hide SpendAttempt, Confirm;
    var t := SpendAttempt(w.depot, a, i, code).0;
    DeliveryActions.SpendOutcome(w.depot, a, i, code);
    DeliveryActions.ConfirmOutcome(t, Ticket(a, i, code, |w.depot.deliveries[i].log|), accepted);
  }

  /** So whatever the queue does keeps the depot good and its histories growing. */
  lemma {:induction false} StepsKeep(s: Depot, ops: seq<Op>)
    requires DeliveryProofs.Inv(s)
    ensures DeliveryProofs.Inv(Steps(s, ops)) && Longer(s.deliveries, Steps(s, ops).deliveries)
  {
    hide Step, DeliveryProofs.Inv, Longer;
    if ops == [] {
      Same(s.deliveries);
    } else {
      var t := Steps(s, ops[..|ops| - 1]);
      StepsKeep(s, ops[..|ops| - 1]);
      StepKeeps(t, ops[|ops| - 1]);
      StepGrows(t, ops[|ops| - 1]);
      Longest(s.deliveries, t.deliveries, Step(t, ops[|ops| - 1]).deliveries);
    }
  }

  /** No operation of a queue, applied, refused or broken, undoes what an earlier one did. */
  lemma {:induction false} QueueUndoesNothing(answers: Operation -> Answer, s: Server<World, Delivery>,
                                              a: Actor, ops: seq<Operation>, now: int)
    requires DeliveryProofs.Inv(s.world.depot)
    ensures var t := Apply(Deliverer(answers), s, a, ops, now).0;
            && DeliveryProofs.Inv(t.world.depot)
            && Longer(s.world.depot.deliveries, t.world.depot.deliveries)
            && t.world.payments >= s.world.payments
  {
    hide DeliveryProofs.Inv, Longer, Steps, SeenReply, PerformConfirm, OfResult;
    if ops == [] {
      Same(s.world.depot.deliveries);
    } else {
      var t := Apply(Deliverer(answers), s, a, ops[..|ops| - 1], now).0;
      QueueUndoesNothing(answers, s, a, ops[..|ops| - 1], now);
      OneUndoesNothing(answers, t, a, ops[|ops| - 1], now);
      Longest(s.world.depot.deliveries, t.world.depot.deliveries,
              One(Deliverer(answers), t, a, ops[|ops| - 1], now).0.world.depot.deliveries);
    }
  }

  lemma OneUndoesNothing(answers: Operation -> Answer, s: Server<World, Delivery>, a: Actor, op: Operation, now: int)
    requires DeliveryProofs.Inv(s.world.depot)
    ensures var t := One(Deliverer(answers), s, a, op, now).0;
            && DeliveryProofs.Inv(t.world.depot)
            && Longer(s.world.depot.deliveries, t.world.depot.deliveries)
            && t.world.payments >= s.world.payments
  {
    hide DeliveryProofs.Inv, Longer, Steps, SeenReply, SpendAttempt, Confirm, Arrive, Fail;
    Same(s.world.depot.deliveries);
    var steps := PerformIsSteps(s.world, a, op, answers(op));
    StepsKeep(s.world.depot, steps);
  }

  /** A delivery as it was, or with one more wrong code counted. */
  ghost predicate OnlyCounted(d: Delivery, e: Delivery) {
    e == d || (e == Reject(d) && OnTheRoad(d.status) && !d.codeLocked)
  }

  ghost predicate LeavesOnlyACount(w: World, v: World, op: Operation) {
    && v.payments == w.payments && v.depot.runs == w.depot.runs
    && |v.depot.deliveries| == |w.depot.deliveries|
    && forall i :: 0 <= i < |w.depot.deliveries| ==>
         OnlyCounted(w.depot.deliveries[i], v.depot.deliveries[i])
         && (v.depot.deliveries[i] != w.depot.deliveries[i] ==> i == op.entity && op.kind.ConfirmOp?)
  }

  /** A refused operation leaves nothing behind but a counted wrong code. */
  lemma RefusedOnlyCounts(w: World, a: Actor, op: Operation, answer: Answer)
    requires PerformOn(w, a, op, answer).Declined?
    ensures LeavesOnlyACount(w, PerformOn(w, a, op, answer).world, op)
  {
  }

  /** Nor does a broken one, which leaves no log row either. */
  lemma BrokenOnlyCounts(w: World, a: Actor, op: Operation, answer: Answer)
    requires PerformOn(w, a, op, answer).Broken?
    ensures LeavesOnlyACount(w, PerformOn(w, a, op, answer).world, op)
  {
  }

  /** A wrong code for a delivery that would count it. */
  ghost predicate Counts(w: World, a: Actor, op: Operation) {
    && MayTouch(w, a, op.entity) && op.kind.ConfirmOp? && op.kind.code.Some?
    && MayAct(a, w.depot.deliveries[op.entity]) == None
    && OnTheRoad(w.depot.deliveries[op.entity].status) && !w.depot.deliveries[op.entity].codeLocked
    && w.depot.deliveries[op.entity].code != op.kind.code
  }

  lemma PerformCounts(w: World, a: Actor, op: Operation, answer: Answer)
    requires op.entity < |w.depot.deliveries|
    ensures var i := op.entity;
            var v := PerformOn(w, a, op, answer).world;
            && i < |v.depot.deliveries|
            && (v.depot.deliveries[i] == Reject(w.depot.deliveries[i]) <==>
                  Counts(w, a, op) && answer != Limited && answer != CrashFirst)
  {
    hide Reject, MayAct;
    RejectDiffers(w.depot.deliveries[op.entity]);
  }

  /**
   Sending an operation counts a wrong code exactly when its id is not in the log, the code is wrong for a
   delivery that counts, and neither the rate limiter nor an early crash comes first. Whether the request
   then reaches the log does not matter.
   */
  lemma CountsUnlessLogged(answers: Operation -> Answer, s: Server<World, Delivery>, a: Actor, op: Operation, now: int)
    requires op.entity < |s.world.depot.deliveries|
    ensures var i := op.entity;
            var t := One(Deliverer(answers), s, a, op, now).0;
            && i < |t.world.depot.deliveries|
            && (t.world.depot.deliveries[i] == Reject(s.world.depot.deliveries[i]) <==>
                  op.id !in s.log && Counts(s.world, a, op) && answers(op) != Limited && answers(op) != CrashFirst)
  {
    hide SeenReply, Reject, PerformOn, Counts;
    RejectDiffers(s.world.depot.deliveries[op.entity]);
    PerformCounts(s.world, a, op, answers(op));
  }

  lemma RejectDiffers(d: Delivery)
    ensures Reject(d).log != d.log && Reject(d).history == d.history && Reject(d).code == d.code
    ensures |Reject(d).log| == |d.log| + 1
  {
  }

  /**
   Exactly-once covers the executions that reach the log. A wrong code whose request breaks after counting
   it is counted again when the queue is sent again, however soon, though the log shows one execution.
   */
  lemma BrokenCountsAgain(answers: Operation -> Answer, again: Operation -> Answer, s: Server<World, Delivery>,
                          a: Actor, op: Operation, now: int, later: int)
    requires op.id !in s.log && Counts(s.world, a, op)
    requires s.world.depot.deliveries[op.entity].codeAttempts + 2 <= MAX_ATTEMPTS
    requires answers(op) == CrashLast && again(op) in {Yes, No}
    ensures var t := One(Deliverer(answers), s, a, op, now).0;
            var u := One(Deliverer(again), t, a, op, later).0;
            && t.log == s.log && t.acted == s.acted
            && u.acted == s.acted + [Act(op.id, later)]
            && u.world.depot.deliveries[op.entity].codeAttempts == s.world.depot.deliveries[op.entity].codeAttempts + 2
  {
    hide SeenReply;
    var t := One(Deliverer(answers), s, a, op, now).0;
    assert t.world.depot.deliveries[op.entity] == Reject(s.world.depot.deliveries[op.entity]);
  }
}
