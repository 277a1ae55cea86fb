/**
 Replaying a courier's offline queue: operations in the client's order, one transaction each, behind a
 log keyed by operation id. What an operation does is a parameter, so the laws hold for every one;
 `SyncDeliveries` gives the deliveries' own.
 */
module Sync {
  import opened Seqs
  import opened Deliveries

  datatype Kind =
    | ArriveOp
    | ConfirmOp(code: Option<int>)
    | FailOp(reasonGiven: bool)
    | PaymentOp(amountGiven: bool)

  datatype Operation = Operation(id: nat, kind: Kind, entity: nat, clientTime: int)

  /**
   `Declined` and `Broken` carry the world too: what was committed outside the operation's savepoint, as
   counted code attempts are, stays. `Broken` is an error that is not the service's own refusal.
   */
  datatype Outcome<W> =
    | Done(world: W, payment: Option<nat>)
    | Declined(world: W, error: Error)
    | Broken(world: W)

  datatype Code = SyncConflict | Own(error: Error)

  datatype Verdict = Applied | Conflict | Rejected | Duplicate

  datatype Row<V> = Row(
    courier: nat, entity: nat, received: int, verdict: Verdict, error: Option<Code>,
    payment: Option<nat>, state: Option<V>)

  datatype Reply<V> = Reply(id: nat, verdict: Verdict, error: Option<Code>, payment: Option<nat>, state: Option<V>)

  /** `acted` records which operations were carried out to a logged end, and when. */
  datatype Server<W, V> = Server(world: W, log: map<nat, Row<V>>, acted: seq<Act>)

  datatype Act = Act(id: nat, at: int)

  datatype System<!W, !V> = System(
    perform: (W, Actor, Operation) -> Outcome<W>,
    view: (W, Actor, nat) -> Option<V>)

  const KEEP_DAYS := 30

  /** A conflict means that the server has moved on. */
  function Classify(e: Error): (Verdict, Option<Code>) {
    if e == InvalidTransition || e == VersionConflict then (Conflict, Some(SyncConflict)) else (Rejected, Some(Own(e)))
  }

  // ---------------------------------------------------------------- one operation

  function SeenReply<W, V>(sys: System<W, V>, s: Server<W, V>, a: Actor, op: Operation): Reply<V>
    requires op.id in s.log
  {
    var row := s.log[op.id];
    if row.courier != a.user || sys.view(s.world, a, row.entity) == None
    then Reply(op.id, Rejected, Some(Own(NotFound)), None, None)
    else Reply(op.id, Duplicate, row.error, row.payment, row.state)
  }

  function Logged<W, V>(sys: System<W, V>, s: Server<W, V>, a: Actor, op: Operation, now: int,
                        world: W, verdict: Verdict, error: Option<Code>, payment: Option<nat>)
    : (Server<W, V>, Option<Reply<V>>)
  {
    var state := if verdict == Conflict then sys.view(world, a, op.entity) else None;
    (Server(world, s.log[op.id := Row(a.user, op.entity, now, verdict, error, payment, state)],
            s.acted + [Act(op.id, now)]),
     Some(Reply(op.id, verdict, error, payment, state)))
  }

  /** `None` is a request that fails as a whole; nothing of this operation is logged then. */
  function One<W, V>(sys: System<W, V>, s: Server<W, V>, a: Actor, op: Operation, now: int)
    : (Server<W, V>, Option<Reply<V>>)
  {
    if op.id in s.log then (s, Some(SeenReply(sys, s, a, op)))
    else
      match sys.perform(s.world, a, op)
      case Done(world, payment) => Logged(sys, s, a, op, now, world, Applied, None, payment)
      case Declined(world, error) =>
        var (verdict, code) := Classify(error);
        Logged(sys, s, a, op, now, world, verdict, code, None)
      case Broken(world) => (s.(world := world), None)
  }

  // ---------------------------------------------------------------- a batch

  function Earlier(): (Operation, Operation) -> bool {
    (x: Operation, y: Operation) => x.clientTime < y.clientTime
  }

  /** The operations in the order given, until one breaks. */
  function Apply<W, V>(sys: System<W, V>, s: Server<W, V>, a: Actor, ops: seq<Operation>, now: int)
    : (Server<W, V>, Option<seq<Reply<V>>>)
  {
    if ops == [] then (s, Some([]))
    else
      var (t, replies) := Apply(sys, s, a, ops[..|ops| - 1], now);
      if replies == None then (t, None)
      else
        var (u, reply) := One(sys, t, a, ops[|ops| - 1], now);
        (u, if reply == None then None else Some(replies.value + [reply.value]))
  }

  function Batch<W, V>(sys: System<W, V>, s: Server<W, V>, a: Actor, ops: seq<Operation>, now: int)
    : (Server<W, V>, Option<seq<Reply<V>>>)
  {
    Apply(sys, s, a, Sort(ops, Earlier()), now)
  }

  class Service<W, V> {
    const sys: System<W, V>
    var server: Server<W, V>

    constructor (sys: System<W, V>, server: Server<W, V>)
      ensures this.sys == sys && this.server == server
    {
      this.sys, this.server := sys, server;
    }

    /** Refused or not, what was performed is logged; only a broken request leaves no row. */
    method Step(a: Actor, op: Operation, now: int) returns (reply: Option<Reply<V>>)
      modifies this
      ensures (server, reply) == One(sys, old(server), a, op, now)
    {
      if op.id in server.log { return Some(SeenReply(sys, server, a, op)); }
      var verdict, error, payment := Applied, None, None;
      var outcome := sys.perform(server.world, a, op);
      server := server.(world := outcome.world);
      match outcome {
        case Done(_, p) => payment := p;
        case Declined(_, e) => verdict, error := Classify(e).0, Classify(e).1;
        case Broken(_) => return None;
      }
      var state := if verdict == Conflict then sys.view(server.world, a, op.entity) else None;
      server := server.(log := server.log[op.id := Row(a.user, op.entity, now, verdict, error, payment, state)],
                        acted := server.acted + [Act(op.id, now)]);
      reply := Some(Reply(op.id, verdict, error, payment, state));
    }

    method Replay(a: Actor, operations: seq<Operation>, now: int) returns (replies: Option<seq<Reply<V>>>)
      modifies this
      ensures (server, replies) == Batch(sys, old(server), a, operations, now)
    {
      hide One, Sort;
      var ops := Sort(operations, Earlier());
      var done: seq<Reply<V>> := [];
      for k := 0 to |ops|
        invariant (server, Some(done)) == Apply(sys, old(server), a, ops[..k], now)
      {
        assert ops[..k + 1][..k] == ops[..k];
        var reply := Step(a, ops[k], now);
        if reply == None {
          BrokenStays(sys, old(server), a, ops, now, k + 1);
          return None;
        }
        done := done + [reply.value];
      }
      assert ops[..|ops|] == ops;
      replies := Some(done);
    }
  }

  lemma {:induction false} BrokenStays<W, V>(sys: System<W, V>, s: Server<W, V>, a: Actor,
                                           ops: seq<Operation>, now: int, k: nat)
    requires k <= |ops| && Apply(sys, s, a, ops[..k], now).1 == None
    ensures Apply(sys, s, a, ops, now) == Apply(sys, s, a, ops[..k], now)
  {
    hide One;
    if k == |ops| {
      assert ops[..k] == ops;
    } else {
      assert ops[..|ops| - 1][..k] == ops[..k];
      BrokenStays(sys, s, a, ops[..|ops| - 1], now, k);
    }
  }

  // ---------------------------------------------------------------- replays

  /** Rows stay as they were written. */
  ghost predicate Grows<W, V>(s: Server<W, V>, t: Server<W, V>) {
    forall id :: id in s.log ==> id in t.log && t.log[id] == s.log[id]
  }

  lemma {:induction false} ApplyGrows<W, V>(sys: System<W, V>, s: Server<W, V>, a: Actor, ops: seq<Operation>, now: int)
    ensures Grows(s, Apply(sys, s, a, ops, now).0)
    ensures Apply(sys, s, a, ops, now).1.Some? ==>
        forall k :: 0 <= k < |ops| ==> ops[k].id in Apply(sys, s, a, ops, now).0.log
  {
    if ops != [] { ApplyGrows(sys, s, a, ops[..|ops| - 1], now); }
  }

  function Unseen<W, V>(s: Server<W, V>): Operation -> bool { (op: Operation) => op.id !in s.log }

  /** What one operation more makes of a batch that has come this far. */
  function Further<W, V>(sys: System<W, V>, r: (Server<W, V>, Option<seq<Reply<V>>>), a: Actor, op: Operation, now: int)
    : (Server<W, V>, Option<seq<Reply<V>>>)
  {
    if r.1 == None then r
    else
      var (u, reply) := One(sys, r.0, a, op, now);
      (u, if reply == None then None else Some(r.1.value + [reply.value]))
  }

  lemma ApplySnoc<W, V>(sys: System<W, V>, s: Server<W, V>, a: Actor, ops: seq<Operation>, op: Operation, now: int)
    ensures Apply(sys, s, a, ops + [op], now) == Further(sys, Apply(sys, s, a, ops, now), a, op, now)
  {
    hide One;
    assert (ops + [op])[..|ops|] == ops;
  }

  lemma {:induction false} ApplyUnseen<W, V>(
      sys: System<W, V>, s: Server<W, V>, a: Actor, ops: seq<Operation>, now: int)
    ensures Apply(sys, s, a, Filter(ops, Unseen(s)), now).0 == Apply(sys, s, a, ops, now).0
    ensures Apply(sys, s, a, Filter(ops, Unseen(s)), now).1.Some? <==> Apply(sys, s, a, ops, now).1.Some?
  {
    hide Apply, One, Filter, Grows;
    if ops == [] {
      FilterNone(Unseen(s));
    } else {
      var rest, op := ops[..|ops| - 1], ops[|ops| - 1];
      assert ops == rest + [op];
      ApplyUnseen(sys, s, a, rest, now);
      ApplySnoc(sys, s, a, rest, op, now);
      FilterSnoc(rest, op, Unseen(s));
      if op.id in s.log {
        ApplyGrows(sys, s, a, rest, now);
        StillSeen(s, Apply(sys, s, a, rest, now).0, op.id);
        SeenIsAnswered(sys, Apply(sys, s, a, rest, now).0, a, op, now);
      } else {
        ApplySnoc(sys, s, a, Filter(rest, Unseen(s)), op, now);
      }
    }
  }

  /** A logged operation is answered and changes nothing. */
  lemma SeenIsAnswered<W, V>(sys: System<W, V>, s: Server<W, V>, a: Actor, op: Operation, now: int)
    requires op.id in s.log
    ensures One(sys, s, a, op, now) == (s, Some(SeenReply(sys, s, a, op)))
  {
    hide SeenReply;
  }

  lemma StillSeen<W, V>(s: Server<W, V>, t: Server<W, V>, id: nat)
    requires Grows(s, t) && id in s.log
    ensures id in t.log
  {
  }

  lemma EarlierIsWeak()
    ensures StrictWeak(Earlier())
  {
  }

  /**
   Applying a batch leaves exactly the state that applying only its unseen operations leaves: dropping
   what was logged commutes with the sort by client time.
   */
  lemma ReplayAppliesOnlyTheUnseen<W, V>(sys: System<W, V>, s: Server<W, V>, a: Actor, ops: seq<Operation>, now: int)
    ensures Batch(sys, s, a, ops, now).0 == Batch(sys, s, a, Filter(ops, Unseen(s)), now).0
  {
    hide Sort, Filter, Apply;
    EarlierIsWeak();
    FilterSort(ops, Earlier(), Unseen(s));
    ApplyUnseen(sys, s, a, Sort(ops, Earlier()), now);
  }

  lemma {:induction false} ApplySeen<W, V>(sys: System<W, V>, s: Server<W, V>, a: Actor, ops: seq<Operation>, now: int)
    requires forall k :: 0 <= k < |ops| ==> ops[k].id in s.log
    ensures Apply(sys, s, a, ops, now).0 == s
    ensures Apply(sys, s, a, ops, now).1.Some? && |Apply(sys, s, a, ops, now).1.value| == |ops|
    ensures forall k :: 0 <= k < |ops| ==> Apply(sys, s, a, ops, now).1.value[k] == SeenReply(sys, s, a, ops[k])
  {
    hide Logged, SeenReply;
    if ops != [] { ApplySeen(sys, s, a, ops[..|ops| - 1], now); }
  }

  /** Sending an answered batch again, whole or in part, in any order and at any time, changes nothing. */
  lemma AnsweredBatchIsReplayed<W, V>(sys: System<W, V>, s: Server<W, V>, a: Actor, ops: seq<Operation>, now: int,
                                     b: Actor, again: seq<Operation>, later: int)
    requires Batch(sys, s, a, ops, now).1.Some? && forall op :: op in again ==> op in ops
    ensures var t := Batch(sys, s, a, ops, now).0; Batch(sys, t, b, again, later).0 == t
    ensures var t := Batch(sys, s, a, ops, now).0; Batch(sys, t, b, again, later).1.Some?
  {
    hide Sort, Apply;
    var sorted, queue := Sort(ops, Earlier()), Sort(again, Earlier());
    ApplyGrows(sys, s, a, sorted, now);
    InMultiset(ops, sorted);
    InMultiset(again, queue);
    forall k | 0 <= k < |queue| ensures queue[k].id in Batch(sys, s, a, ops, now).0.log {
      assert queue[k] in again && queue[k] in sorted;
      var j :| 0 <= j < |sorted| && sorted[j] == queue[k];
    }
    ApplySeen(sys, Batch(sys, s, a, ops, now).0, b, queue, later);
  }

  /**
   An operation acts exactly when its id is not in the log. For as long as its row is kept, whatever comes
   under the same id is answered what it was answered the first time, error, payment and state, if the
   same courier asks and still sees the delivery; anyone else is answered that there is nothing. Neither
   changes anything.
   */
  lemma FirstAnswerIsRepeated<W, V>(sys: System<W, V>, s: Server<W, V>, a: Actor, op: Operation, now: int,
                                    t: Server<W, V>, b: Actor, again: Operation, later: int)
    requires op.id !in s.log && One(sys, s, a, op, now).1.Some?
    requires Grows(One(sys, s, a, op, now).0, t) && again.id == op.id
    ensures One(sys, s, a, op, now).0.acted == s.acted + [Act(op.id, now)]
    ensures var first := One(sys, s, a, op, now).1.value;
            One(sys, t, b, again, later)
            == (t, Some(if b.user == a.user && sys.view(t.world, b, op.entity).Some? then first.(verdict := Duplicate)
                        else Reply(op.id, Rejected, Some(Own(NotFound)), None, None)))
  {
  }

  /**
   What an unseen operation is answered follows from what carrying it out came to: applied, with the payment
   it made; in conflict, with the state the server is in, when the server has moved on; rejected with the
   error otherwise. The row says the same, under the operation's id, for the courier, the delivery and the
   time. A broken one is not answered and leaves no row.
   */
  lemma UnseenIsAnswered<W, V>(sys: System<W, V>, s: Server<W, V>, a: Actor, op: Operation, now: int)
    requires op.id !in s.log
    ensures var (t, reply) := One(sys, s, a, op, now);
            match sys.perform(s.world, a, op)
            case Done(world, payment) =>
              && t.world == world && t.acted == s.acted + [Act(op.id, now)]
              && reply == Some(Reply(op.id, Applied, None, payment, None))
              && t.log == s.log[op.id := Row(a.user, op.entity, now, Applied, None, payment, None)]
            case Declined(world, error) =>
              && t.world == world && t.acted == s.acted + [Act(op.id, now)] && reply.Some?
              && (reply.value.verdict == Conflict <==> error == InvalidTransition || error == VersionConflict)
              && (reply.value.verdict == Conflict ==>
                    reply.value == Reply(op.id, Conflict, Some(SyncConflict), None, sys.view(world, a, op.entity)))
              && (reply.value.verdict != Conflict ==>
                    reply.value == Reply(op.id, Rejected, Some(Own(error)), None, None))
              && t.log == s.log[op.id := Row(a.user, op.entity, now, reply.value.verdict, reply.value.error, None,
                                             reply.value.state)]
            case Broken(world) => t == s.(world := world) && reply == None
  {
  }

  /** One answer an operation, in the order in which they were carried out. */
  lemma {:induction false} OneAnswerEach<W, V>(sys: System<W, V>, s: Server<W, V>, a: Actor,
                                             ops: seq<Operation>, now: int)
    ensures var replies := Apply(sys, s, a, ops, now).1;
            replies.Some? ==>
              |replies.value| == |ops| && forall k :: 0 <= k < |ops| ==> replies.value[k].id == ops[k].id
  {
    hide One;
    if ops != [] {
      OneAnswerEach(sys, s, a, ops[..|ops| - 1], now);
      AnswersItself(sys, Apply(sys, s, a, ops[..|ops| - 1], now).0, a, ops[|ops| - 1], now);
    }
  }

  lemma AnswersItself<W, V>(sys: System<W, V>, s: Server<W, V>, a: Actor, op: Operation, now: int)
    ensures One(sys, s, a, op, now).1.Some? ==> One(sys, s, a, op, now).1.value.id == op.id
  {
  }

  /**
   A batch is carried out in the client's order: the queue that is applied is the batch rearranged so that no
   operation comes after one with a later client time, and those of one client time stay as they were sent.
   */
  lemma ClientOrder<W, V>(sys: System<W, V>, s: Server<W, V>, a: Actor, ops: seq<Operation>, now: int)
      returns (queue: seq<Operation>)
    ensures multiset(queue) == multiset(ops)
    ensures forall i, j :: 0 <= i < j < |queue| ==> queue[i].clientTime <= queue[j].clientTime
    ensures forall time :: Filter(queue, SentAt(time)) == Filter(ops, SentAt(time))
    ensures Batch(sys, s, a, ops, now) == Apply(sys, s, a, queue, now)
    ensures var replies := Batch(sys, s, a, ops, now).1;
            replies.Some? ==>
              |replies.value| == |queue| && forall k :: 0 <= k < |queue| ==> replies.value[k].id == queue[k].id
  {
    hide Sort, Filter, Apply;
    queue := Sort(ops, Earlier());
    EarlierIsWeak();
    SortSorted(ops, Earlier());
    OneAnswerEach(sys, s, a, queue, now);
    forall time ensures Filter(queue, SentAt(time)) == Filter(ops, SentAt(time)) {
      FilterSort(ops, Earlier(), SentAt(time));
      AlreadySorted(Filter(ops, SentAt(time)), time);
    }
  }

  function SentAt(time: int): Operation -> bool { (op: Operation) => op.clientTime == time }

  lemma {:induction false} AlreadySorted(ops: seq<Operation>, time: int)
    requires forall op :: op in ops ==> op.clientTime == time
    ensures Sort(ops, Earlier()) == ops
  {
    hide Sort;
    if ops == [] {
      SortNone(Earlier());
    } else {
      var rest, op := ops[..|ops| - 1], ops[|ops| - 1];
      assert ops == rest + [op];
      AlreadySorted(rest, time);
      SortSnoc(rest, op, Earlier());
      assert rest != [] ==> rest[|rest| - 1] in ops;
      InsertLast(op, rest, Earlier());
    }
  }

  // ---------------------------------------------------------------- whole histories

  datatype Event =
    | Queue(actor: Actor, ops: seq<Operation>)
    | Elapse(days: nat)
    | PurgeLog

  function Purged<W, V>(s: Server<W, V>, now: int): Server<W, V> {
    s.(log := map id | id in s.log && !(s.log[id].received < now - KEEP_DAYS) :: s.log[id])
  }

  /** Server and clock; time is counted in days. */
  function Happens<W, V>(sys: System<W, V>, s: Server<W, V>, now: int, e: Event): (Server<W, V>, int) {
    match e
    case Queue(a, ops) => (Batch(sys, s, a, ops, now).0, now)
    case Elapse(days) => (s, now + days)
    case PurgeLog => (Purged(s, now), now)
  }

  function History<W, V>(sys: System<W, V>, world: W, events: seq<Event>): (Server<W, V>, int) {
    if events == [] then (Server(world, map[], []), 0)
    else
      var (s, now) := History(sys, world, events[..|events| - 1]);
      Happens(sys, s, now, events[|events| - 1])
  }

  /** Whatever acted is in the log with the time of its last action, or that time is long past. */
  ghost predicate Inv<W, V>(s: Server<W, V>, now: int) {
    && (forall i :: 0 <= i < |s.acted| ==> s.acted[i].at <= now)
    && (forall i :: 0 <= i < |s.acted| ==>
          (s.acted[i].id in s.log && s.acted[i].at <= s.log[s.acted[i].id].received) || s.acted[i].at + KEEP_DAYS < now)
    && (forall i, j :: 0 <= i < j < |s.acted| && s.acted[i].id == s.acted[j].id ==>
          s.acted[i].at + KEEP_DAYS < s.acted[j].at)
  }

  lemma OneKeeps<W, V>(sys: System<W, V>, s: Server<W, V>, a: Actor, op: Operation, now: int)
    requires Inv(s, now)
    ensures Inv(One(sys, s, a, op, now).0, now)
  {
    hide SeenReply;
  }

  lemma {:induction false} ApplyKeeps<W, V>(sys: System<W, V>, s: Server<W, V>, a: Actor, ops: seq<Operation>, now: int)
    requires Inv(s, now)
    ensures Inv(Apply(sys, s, a, ops, now).0, now)
  {
    hide Inv, One;
    if ops != [] {
      ApplyKeeps(sys, s, a, ops[..|ops| - 1], now);
      OneKeeps(sys, Apply(sys, s, a, ops[..|ops| - 1], now).0, a, ops[|ops| - 1], now);
    }
  }

  lemma HappensKeeps<W, V>(sys: System<W, V>, s: Server<W, V>, now: int, e: Event)
    requires Inv(s, now)
    ensures Inv(Happens(sys, s, now, e).0, Happens(sys, s, now, e).1)
  {
    hide Apply, Sort;
    match e
    case Queue(a, ops) => ApplyKeeps(sys, s, a, Sort(ops, Earlier()), now);
    case Elapse(days) =>
    case PurgeLog =>
  }

  lemma {:induction false} HistoryKeeps<W, V>(sys: System<W, V>, world: W, events: seq<Event>)
    ensures Inv(History(sys, world, events).0, History(sys, world, events).1)
  {
    hide Happens;
    if events != [] {
      hide Inv;
      HistoryKeeps(sys, world, events[..|events| - 1]);
      var (s, now) := History(sys, world, events[..|events| - 1]);
      HappensKeeps(sys, s, now, events[|events| - 1]);
    }
  }

  /**
   Exactly once while the log is kept: over any history of queues, crashes and purges, an operation that is
   carried out to a logged end twice is so more than thirty days apart. What a broken request committed
   outside its own transaction is not undone and not logged.
   */
  lemma ActsOnceWhileLogged<W, V>(sys: System<W, V>, world: W, events: seq<Event>, i: nat, j: nat)
    requires i < j < |History(sys, world, events).0.acted|
    requires var acted := History(sys, world, events).0.acted; acted[i].id == acted[j].id
    ensures var acted := History(sys, world, events).0.acted; acted[i].at + 30 < acted[j].at
  {
    hide History;
    HistoryKeeps(sys, world, events);
  }

  /** And no longer: once the row is purged, the same operation acts again, and only then. */
  lemma PurgedActsAgain<W, V>(sys: System<W, V>, s: Server<W, V>, a: Actor, op: Operation, now: int, later: int)
    requires op.id in s.log && !sys.perform(s.world, a, op).Broken?
    ensures var t := Purged(s, later);
            One(sys, t, a, op, later).0.acted == s.acted + [Act(op.id, later)]
            <==> s.log[op.id].received + 30 < later
  {
  }
}
