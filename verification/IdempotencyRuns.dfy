/**
 The idempotency protocol as a transition system: any number of requests, each at one of its
 statements, interleaved with each other, with purges and with one clock that never goes back.
 */
module IdempotencyRuns {
  import opened Seqs
  import opened Idempotency

  datatype Phase =
    | Claiming(round: nat)
    | Reading(round: nat)
    | Owning(id: nat, created: int, expires: int)
    | Failing(id: nat)
    | Answered(outcome: Outcome)
    | Executed
    | Gone

  datatype Request = Request(name: Name, hash: int, ttl: nat, phase: Phase)

  /** A committed business change, with the claim it was made under. */
  datatype Effect = Effect(
    id: nat, name: Name, hash: int, created: int, expires: int, at: int, stored: Stored)

  datatype Replay = Replay(name: Name, hash: int, status: nat, body: Option<int>)

  datatype State = State(
    clock: int, nextId: nat, table: Table, requests: map<nat, Request>, effects: seq<Effect>, replays: seq<Replay>)

  datatype Step =
    | Tick(elapsed: nat)
    | Arrive(r: nat, name: Name, hash: int, ttl: nat)
    | TryClaim(r: nat)
    | Read(r: nat)
    | Commit(r: nat, status: nat, body: Option<int>, acknowledged: bool)
    | Raise(r: nat)
    | GiveBack(r: nat)
    | Crash(r: nat)
    | PurgeAll

  function At(s: State, r: nat, phase: Phase): State
    requires r in s.requests
  {
    s.(requests := s.requests[r := s.requests[r].(phase := phase)])
  }

  /** Upsert and commit, the clock read included. */
  function ClaimOnce(s: State, r: nat): State
    requires r in s.requests && s.requests[r].phase.Claiming?
  {
    var q := s.requests[r];
    if Claimable(s.table, q.name, s.clock) then
      At(s.(table := s.table[q.name := Fresh(s.nextId, q.hash, s.clock, q.ttl)], nextId := s.nextId + 1),
         r, Owning(s.nextId, s.clock, s.clock + q.ttl))
    else
      At(s, r, Reading(q.phase.round))
  }

  function ReadOnce(s: State, r: nat): State
    requires r in s.requests && s.requests[r].phase.Reading?
  {
    var q := s.requests[r];
    if q.name in s.table then
      var v := Verdict(s.table[q.name], q.hash);
      var replays := if v.Replayed? then s.replays + [Replay(q.name, q.hash, v.status, v.body)] else s.replays;
      At(s.(replays := replays), r, Answered(v))
    else if q.phase.round + 1 < ROUNDS then At(s, r, Claiming(q.phase.round + 1))
    else At(s, r, Answered(RequestInProgress))
  }

  /**
   Business change, `mark_completed` and commit are one transaction. It fails as a whole when the claim
   is lost; its acknowledgement may be lost too, and then the handler abandons a finished claim.
   */
  ghost function CommitOnce(s: State, r: nat, stored: Stored, acknowledged: bool): State
    requires r in s.requests && s.requests[r].phase.Owning?
  {
    var q := s.requests[r];
    var id := q.phase.id;
    if !Holds(s.table, id) then At(s, r, Failing(id))
    else
      var e := Effect(id, q.name, q.hash, q.phase.created, q.phase.expires, s.clock, stored);
      At(s.(table := Complete(s.table, id, stored), effects := s.effects + [e]),
         r, if acknowledged then Executed else Failing(id))
  }

  /** A step that is not enabled does nothing. */
  ghost function Next(s: State, step: Step): State {
    match step
    case Tick(d) => s.(clock := s.clock + d)
    case Arrive(r, name, hash, ttl) =>
      if r in s.requests then s else s.(requests := s.requests[r := Request(name, hash, ttl, Claiming(0))])
    case TryClaim(r) => if r in s.requests && s.requests[r].phase.Claiming? then ClaimOnce(s, r) else s
    case Read(r) => if r in s.requests && s.requests[r].phase.Reading? then ReadOnce(s, r) else s
    case Commit(r, status, body, acknowledged) =>
      if r in s.requests && s.requests[r].phase.Owning? && 100 <= status < 400
      then CommitOnce(s, r, Stored(Some(status), body), acknowledged) else s
    case Raise(r) =>
      if r in s.requests && s.requests[r].phase.Owning? then At(s, r, Failing(s.requests[r].phase.id)) else s
    case GiveBack(r) =>
      if r in s.requests && s.requests[r].phase.Failing?
      then At(s.(table := Without(s.table, s.requests[r].phase.id)), r, Gone) else s
    case Crash(r) => if r in s.requests then At(s, r, Gone) else s
    case PurgeAll => s.(table := Purged(s.table, s.clock))
  }

  ghost function Run(s: State, steps: seq<Step>): State {
    if steps == [] then s else Next(Run(s, steps[..|steps| - 1]), steps[|steps| - 1])
  }

  function Start(clock: int): State { State(clock, 0, map[], map[], [], []) }

  // ---------------------------------------------------------------- the invariant

  ghost predicate IdsOk(t: Table, nextId: nat, clock: int) {
    && (forall n :: n in t ==> t[n].id < nextId && t[n].created <= clock)
    && (forall n, m :: n in t && m in t && t[n].id == t[m].id ==> n == m)
  }

  ghost predicate Recorded(e: Effect, n: Name, r: Record) {
    e.id == r.id && e.name == n && e.hash == r.hash && e.stored == r.stored
    && e.created == r.created && e.expires == r.expires
  }

  /** A record is `Completed` exactly when its effect committed, and then stores that effect's response. */
  ghost predicate Backed(t: Table, effects: seq<Effect>) {
    && (forall n :: n in t && t[n].status == Completed ==>
          exists i :: 0 <= i < |effects| && Recorded(effects[i], n, t[n]))
    && (forall n, i :: n in t && t[n].status == InProgress && 0 <= i < |effects| ==> effects[i].id != t[n].id)
  }

  /** A request that took a claim and has not finished with it. */
  predicate Owner(q: Request) { q.phase.Owning? || q.phase.Failing? }

  ghost predicate OwnerOk(q: Request, t: Table, nextId: nat)
    requires Owner(q)
  {
    && q.phase.id < nextId
    && (forall n :: n in t && t[n].id == q.phase.id ==> q.name == n && q.hash == t[n].hash)
    && (q.phase.Owning? ==> forall n :: n in t && t[n].id == q.phase.id ==>
          q.phase.created == t[n].created && q.phase.expires == t[n].expires)
  }

  ghost predicate OwnersOk(requests: map<nat, Request>, t: Table, nextId: nat) {
    && (forall r :: r in requests && Owner(requests[r]) ==> OwnerOk(requests[r], t, nextId))
    && (forall r, v | r in requests && v in requests && Owner(requests[r]) && Owner(requests[v]) ::
          requests[r].phase.id == requests[v].phase.id ==> r == v)
  }

  /** The effect's record is still in the table, unchanged. */
  ghost predicate Remembered(t: Table, e: Effect) {
    e.name in t && t[e.name] == Record(e.id, e.hash, Completed, e.stored, e.created, e.expires)
  }

  /** Its record has expired and gone, and whoever holds the name claimed it after the expiry. */
  ghost predicate Forgotten(t: Table, clock: int, e: Effect) {
    && e.expires <= clock
    && (e.name in t ==> e.expires <= t[e.name].created)
    && (forall n :: n in t ==> t[n].id != e.id)
  }

  ghost predicate EffectsOk(effects: seq<Effect>, t: Table, clock: int) {
    forall i :: 0 <= i < |effects| ==> Remembered(t, effects[i]) || Forgotten(t, clock, effects[i])
  }

  /** One effect an id, and the life times of two claims on one name do not overlap. */
  ghost predicate Apart(effects: seq<Effect>) {
    && (forall i, j :: 0 <= i < j < |effects| ==> effects[i].id != effects[j].id)
    && (forall i, j :: 0 <= i < j < |effects| && effects[i].name == effects[j].name ==>
          effects[i].expires <= effects[j].created)
  }

  ghost predicate Plain(effects: seq<Effect>, nextId: nat) {
    forall i :: 0 <= i < |effects| ==>
      effects[i].id < nextId && effects[i].created <= effects[i].at
      && effects[i].stored.status.Some? && 100 <= effects[i].stored.status.value < 400
  }

  ghost predicate Faithful(x: Replay, e: Effect) {
    e.name == x.name && e.hash == x.hash && e.stored == Stored(Some(x.status), x.body)
  }

  ghost predicate Earned(x: Replay, effects: seq<Effect>) {
    exists i :: 0 <= i < |effects| && Faithful(x, effects[i])
  }

  ghost predicate ReplaysOk(replays: seq<Replay>, effects: seq<Effect>) {
    forall k :: 0 <= k < |replays| ==> Earned(replays[k], effects)
  }

  ghost predicate Inv(s: State) {
    && IdsOk(s.table, s.nextId, s.clock) && Backed(s.table, s.effects) && OwnersOk(s.requests, s.table, s.nextId)
    && EffectsOk(s.effects, s.table, s.clock) && Apart(s.effects) && Plain(s.effects, s.nextId)
    && ReplaysOk(s.replays, s.effects)
  }

  // ---------------------------------------------------------------- every step keeps it

  /** Rows disappear only when they are open claims or have expired. */
  ghost predicate Shrinks(t: Table, u: Table, clock: int) {
    && (forall n :: n in u ==> n in t && u[n] == t[n])
    && (forall n :: n in t && n !in u ==> t[n].status == InProgress || t[n].expires <= clock)
  }

  lemma ShrunkEffect(t: Table, u: Table, nextId: nat, clock: int, e: Effect)
    requires IdsOk(t, nextId, clock) && Shrinks(t, u, clock) && (Remembered(t, e) || Forgotten(t, clock, e))
    ensures Remembered(u, e) || Forgotten(u, clock, e)
  {
  }

  lemma Shrunk(s: State, u: Table)
    requires Inv(s) && Shrinks(s.table, u, s.clock)
    ensures Inv(s.(table := u))
  {
    hide Remembered, Forgotten, Recorded, Apart, Plain, ReplaysOk;
    forall i | 0 <= i < |s.effects| ensures Remembered(u, s.effects[i]) || Forgotten(u, s.clock, s.effects[i]) {
      ShrunkEffect(s.table, u, s.nextId, s.clock, s.effects[i]);
    }
  }

  lemma Later(s: State, d: nat)
    requires Inv(s)
    ensures Inv(s.(clock := s.clock + d))
  {
  }

  /** A request that takes no claim on may move freely. */
  lemma Moved(s: State, r: nat, q: Request)
    requires Inv(s)
    requires !Owner(q) || (r in s.requests && Owner(s.requests[r]) && q.phase.Failing?
                           && q == s.requests[r].(phase := Failing(s.requests[r].phase.id)))
    ensures Inv(s.(requests := s.requests[r := q]))
  {
  }

  lemma NewRowBacked(t: Table, name: Name, row: Record, effects: seq<Effect>, nextId: nat)
    requires Backed(t, effects) && Plain(effects, nextId) && row.id == nextId && row.status == InProgress
    ensures Backed(t[name := row], effects)
  {
  }

  lemma NewRowEffects(t: Table, name: Name, row: Record, effects: seq<Effect>, nextId: nat, clock: int)
    requires EffectsOk(effects, t, clock) && Plain(effects, nextId)
    requires row.id == nextId && row.created == clock && name !in t
    ensures EffectsOk(effects, t[name := row], clock)
  {
  }

  lemma NewRowOwners(s: State, r: nat)
    requires IdsOk(s.table, s.nextId, s.clock) && OwnersOk(s.requests, s.table, s.nextId)
    requires r in s.requests && s.requests[r].phase.Claiming? && s.requests[r].name !in s.table
    ensures OwnersOk(ClaimOnce(s, r).requests, ClaimOnce(s, r).table, s.nextId + 1)
  {
    var z := ClaimOnce(s, r);
    forall v | v in z.requests && Owner(z.requests[v]) ensures OwnerOk(z.requests[v], z.table, z.nextId) {
      assert v != r ==> OwnerOk(s.requests[v], s.table, s.nextId);
    }
  }

  lemma Inserted(s: State, r: nat)
    requires Inv(s) && r in s.requests && s.requests[r].phase.Claiming? && s.requests[r].name !in s.table
    ensures Inv(ClaimOnce(s, r))
  {
    hide Backed, EffectsOk, Apart, ReplaysOk, OwnersOk;
    var q := s.requests[r];
    var row := Fresh(s.nextId, q.hash, s.clock, q.ttl);
    NewRowBacked(s.table, q.name, row, s.effects, s.nextId);
    NewRowEffects(s.table, q.name, row, s.effects, s.nextId, s.clock);
    NewRowOwners(s, r);
  }

  lemma Claims(s: State, r: nat)
    requires Inv(s) && r in s.requests && s.requests[r].phase.Claiming?
    requires Claimable(s.table, s.requests[r].name, s.clock)
    ensures Inv(ClaimOnce(s, r))
  {
    hide Inv;
    var q := s.requests[r];
    var row := Fresh(s.nextId, q.hash, s.clock, q.ttl);
    var u := map n | n in s.table && n != q.name :: s.table[n];
    Shrunk(s, u);
    Inserted(s.(table := u), r);
    assert u[q.name := row] == s.table[q.name := row];
  }

  lemma Replays(s: State, r: nat, v: Outcome)
    requires Inv(s) && r in s.requests && s.requests[r].name in s.table
    requires v == Verdict(s.table[s.requests[r].name], s.requests[r].hash) && v.Replayed?
    ensures Inv(s.(replays := s.replays + [Replay(s.requests[r].name, s.requests[r].hash, v.status, v.body)]))
  {
    hide IdsOk, OwnersOk, EffectsOk, Apart;
    var q := s.requests[r];
    var x := Replay(q.name, q.hash, v.status, v.body);
    var i :| 0 <= i < |s.effects| && Recorded(s.effects[i], q.name, s.table[q.name]);
    assert Faithful(x, s.effects[i]);
  }

  lemma HasRead(s: State, r: nat)
    requires Inv(s) && r in s.requests && s.requests[r].phase.Reading?
    ensures Inv(ReadOnce(s, r))
  {
    hide Inv;
    var q := s.requests[r];
    if q.name in s.table && Verdict(s.table[q.name], q.hash).Replayed? {
      var v := Verdict(s.table[q.name], q.hash);
      Replays(s, r, v);
      Moved(s.(replays := s.replays + [Replay(q.name, q.hash, v.status, v.body)]), r, q.(phase := Answered(v)));
    } else {
      Moved(s, r, ReadOnce(s, r).requests[r]);
    }
  }

  /** The one record that a commit completes is the owner's, under the name it claimed. */
  lemma CompletesOwn(s: State, r: nat, stored: Stored)
    requires IdsOk(s.table, s.nextId, s.clock) && OwnersOk(s.requests, s.table, s.nextId)
    requires r in s.requests && s.requests[r].phase.Owning? && Holds(s.table, s.requests[r].phase.id)
    ensures s.requests[r].name in s.table && Open(s.table[s.requests[r].name], s.requests[r].phase.id)
    ensures s.table[s.requests[r].name].hash == s.requests[r].hash
    ensures s.table[s.requests[r].name].created == s.requests[r].phase.created
    ensures s.table[s.requests[r].name].expires == s.requests[r].phase.expires
    ensures Complete(s.table, s.requests[r].phase.id, stored)
         == s.table[s.requests[r].name := s.table[s.requests[r].name].(status := Completed, stored := stored)]
  {
  }

  lemma DoneBacked(t: Table, effects: seq<Effect>, e: Effect, nextId: nat, clock: int)
    requires IdsOk(t, nextId, clock) && Backed(t, effects)
    requires e.name in t && Open(t[e.name], e.id)
    requires Recorded(e, e.name, t[e.name].(status := Completed, stored := e.stored))
    ensures Backed(t[e.name := t[e.name].(status := Completed, stored := e.stored)], effects + [e])
  {
    var u := t[e.name := t[e.name].(status := Completed, stored := e.stored)];
    var all := effects + [e];
    forall n | n in u && u[n].status == Completed ensures exists i :: 0 <= i < |all| && Recorded(all[i], n, u[n]) {
      if n == e.name {
        assert Recorded(all[|effects|], n, u[n]);
      } else {
        var i :| 0 <= i < |effects| && Recorded(effects[i], n, t[n]);
        assert Recorded(all[i], n, u[n]);
      }
    }
  }

  lemma DoneEffects(t: Table, effects: seq<Effect>, e: Effect, nextId: nat, clock: int)
    requires IdsOk(t, nextId, clock) && Backed(t, effects) && EffectsOk(effects, t, clock) && Apart(effects)
    requires e.name in t && Open(t[e.name], e.id)
    requires Recorded(e, e.name, t[e.name].(status := Completed, stored := e.stored))
    ensures EffectsOk(effects + [e], t[e.name := t[e.name].(status := Completed, stored := e.stored)], clock)
    ensures Apart(effects + [e])
  {
  }

  lemma DoneOwners(requests: map<nat, Request>, t: Table, nextId: nat, n: Name, stored: Stored)
    requires OwnersOk(requests, t, nextId) && n in t
    ensures OwnersOk(requests, t[n := t[n].(status := Completed, stored := stored)], nextId)
  {
  }

  lemma Commits(s: State, r: nat, stored: Stored, acknowledged: bool)
    requires Inv(s) && r in s.requests && s.requests[r].phase.Owning?
    requires stored.status.Some? && 100 <= stored.status.value < 400
    ensures Inv(CommitOnce(s, r, stored, acknowledged))
  {
    hide Backed, EffectsOk, Apart, OwnerOk, Holds;
    var q := s.requests[r];
    if Holds(s.table, q.phase.id) {
      CompletesOwn(s, r, stored);
      var e := Effect(q.phase.id, q.name, q.hash, q.phase.created, q.phase.expires, s.clock, stored);
      DoneBacked(s.table, s.effects, e, s.nextId, s.clock);
      DoneEffects(s.table, s.effects, e, s.nextId, s.clock);
      DoneOwners(s.requests, s.table, s.nextId, q.name, stored);
      var z := s.(table := Complete(s.table, e.id, stored), effects := s.effects + [e]);
      MoreReplays(s.replays, s.effects, e);
      assert OwnerOk(q, s.table, s.nextId);
      assert IdsOk(z.table, z.nextId, z.clock);
      Moved(z, r, q.(phase := if acknowledged then Executed else Failing(q.phase.id)));
    } else {
      Moved(s, r, q.(phase := Failing(q.phase.id)));
    }
  }

  lemma MoreReplays(replays: seq<Replay>, effects: seq<Effect>, e: Effect)
    requires ReplaysOk(replays, effects)
    ensures ReplaysOk(replays, effects + [e])
  {
    forall k | 0 <= k < |replays| ensures Earned(replays[k], effects + [e]) {
      assert Earned(replays[k], effects);
      var i :| 0 <= i < |effects| && Faithful(replays[k], effects[i]);
      assert Faithful(replays[k], (effects + [e])[i]);
    }
  }

  lemma NextKeeps(s: State, step: Step)
    requires Inv(s)
    ensures Inv(Next(s, step))
  {
    hide Inv;
    match step
    case Tick(d) => Later(s, d);
    case Arrive(r, name, hash, ttl) => if r !in s.requests { Moved(s, r, Request(name, hash, ttl, Claiming(0))); }
    case TryClaim(r) =>
      if r in s.requests && s.requests[r].phase.Claiming? {
        var q := s.requests[r];
        if Claimable(s.table, q.name, s.clock) {
          Claims(s, r);
        } else {
          Moved(s, r, q.(phase := Reading(q.phase.round)));
        }
      }
    case Read(r) => if r in s.requests && s.requests[r].phase.Reading? { HasRead(s, r); }
    case Commit(r, status, body, acknowledged) =>
      if r in s.requests && s.requests[r].phase.Owning? && 100 <= status < 400 {
        Commits(s, r, Stored(Some(status), body), acknowledged);
      }
    case Raise(r) =>
      if r in s.requests && s.requests[r].phase.Owning? {
        Moved(s, r, s.requests[r].(phase := Failing(s.requests[r].phase.id)));
      }
    case GiveBack(r) =>
      if r in s.requests && s.requests[r].phase.Failing? {
        Shrunk(s, Without(s.table, s.requests[r].phase.id));
        Moved(s.(table := Without(s.table, s.requests[r].phase.id)), r, s.requests[r].(phase := Gone));
      }
    case Crash(r) => if r in s.requests { Moved(s, r, s.requests[r].(phase := Gone)); }
    case PurgeAll => Shrunk(s, Purged(s.table, s.clock));
  }

  lemma {:induction false} RunKeeps(s: State, steps: seq<Step>)
    requires Inv(s)
    ensures Inv(Run(s, steps))
  {
    hide Inv, Next;
    if steps != [] {
      RunKeeps(s, steps[..|steps| - 1]);
      NextKeeps(Run(s, steps[..|steps| - 1]), steps[|steps| - 1]);
    }
  }

  lemma Reached(clock: int, steps: seq<Step>)
    ensures Inv(Run(Start(clock), steps))
  {
    hide Next;
    RunKeeps(Start(clock), steps);
  }

  // ---------------------------------------------------------------- what it is for

  /**
   In every interleaving: an id commits at most once, and a second effect under one scope and key
   comes from a claim taken when the first one's life time was over.
   */
  lemma AtMostOnce(clock: int, steps: seq<Step>, i: nat, j: nat)
    requires i < j < |Run(Start(clock), steps).effects|
    ensures var effects := Run(Start(clock), steps).effects;
            && effects[i].id != effects[j].id
            && (effects[i].name == effects[j].name ==> effects[i].expires <= effects[j].created <= effects[j].at)
  {
    hide Run;
    Reached(clock, steps);
  }

  /** Every replay hands back the response of an effect committed for the same scope, key and body. */
  lemma ReplaysAreFaithful(clock: int, steps: seq<Step>, x: Replay)
    requires x in Run(Start(clock), steps).replays
    ensures exists e :: e in Run(Start(clock), steps).effects && Faithful(x, e)
  {
    hide Run;
    Reached(clock, steps);
    var s := Run(Start(clock), steps);
    var k :| 0 <= k < |s.replays| && s.replays[k] == x;
    assert Earned(x, s.effects);
    var i :| 0 <= i < |s.effects| && Faithful(x, s.effects[i]);
    assert s.effects[i] in s.effects;
  }

  function Answer(x: Stored): nat { if x.status.Some? then x.status.value else 200 }

  /** The id names no open claim any more. */
  ghost predicate Lost(s: State, id: nat) { id < s.nextId && !Holds(s.table, id) }

  lemma LostNext(s: State, step: Step, id: nat)
    requires Lost(s, id)
    ensures Lost(Next(s, step), id)
    ensures s.effects <= Next(s, step).effects
    ensures forall k :: |s.effects| <= k < |Next(s, step).effects| ==> Next(s, step).effects[k].id != id
  {
  }

  /** An owner whose claim was taken over, purged or released never commits, whatever happens next. */
  lemma {:induction false} LostOwnerNeverCommits(s: State, steps: seq<Step>, id: nat)
    requires Lost(s, id)
    ensures Lost(Run(s, steps), id)
    ensures s.effects <= Run(s, steps).effects
    ensures forall k :: |s.effects| <= k < |Run(s, steps).effects| ==> Run(s, steps).effects[k].id != id
  {
    hide Lost, Next;
    if steps != [] {
      LostOwnerNeverCommits(s, steps[..|steps| - 1], id);
      LostNext(Run(s, steps[..|steps| - 1]), steps[|steps| - 1], id);
    }
  }

  /** Two requests that could both still commit under one name are one request. */
  lemma OneLiveOwner(clock: int, steps: seq<Step>, r: nat, v: nat)
    requires var s := Run(Start(clock), steps);
             && r in s.requests && v in s.requests && s.requests[r].name == s.requests[v].name
             && s.requests[r].phase.Owning? && s.requests[v].phase.Owning?
             && Holds(s.table, s.requests[r].phase.id) && Holds(s.table, s.requests[v].phase.id)
    ensures r == v
  {
    hide Run;
    var s := Run(Start(clock), steps);
    Reached(clock, steps);
    CompletesOwn(s, r, NOTHING);
    CompletesOwn(s, v, NOTHING);
  }

  /**
   The other half: until its record expires a committed effect answers every retry. A claim under its
   name is refused, and reading gives its response to the same body and `idempotency_key_reused` to
   another. At the expiry, and not before, the claim is granted again.
   */
  lemma RetriesAreAnswered(clock: int, steps: seq<Step>, e: Effect, r: nat)
    requires var s := Run(Start(clock), steps); e in s.effects && r in s.requests && s.requests[r].name == e.name
    ensures var s := Run(Start(clock), steps);
            var q := s.requests[r];
            && (s.clock < e.expires && q.phase.Claiming? ==> Next(s, TryClaim(r)).requests[r].phase.Reading?)
            && (s.clock < e.expires && q.phase.Reading? ==>
                  Next(s, Read(r)).requests[r].phase
                  == Answered(if q.hash == e.hash then Replayed(Answer(e.stored), e.stored.body) else KeyReused))
            && (Remembered(s.table, e) && q.phase.Claiming? ==>
                  (Next(s, TryClaim(r)).requests[r].phase.Owning? <==> e.expires <= s.clock))
  {
    hide Run;
    var s := Run(Start(clock), steps);
    Reached(clock, steps);
    var i :| 0 <= i < |s.effects| && s.effects[i] == e;
    assert Remembered(s.table, e) || Forgotten(s.table, s.clock, e);
  }

  /**
   What a request meets in any reachable state. A claim is granted exactly when its key is free or its
   record has run out, and then stands for the request's own body and life time. Reading an open claim, the
   same body is told that the request is in progress; another body is told that the key is reused, whatever
   the record's status; and the same body gets a completed record's response.
   */
  lemma RequestsAreAnswered(clock: int, steps: seq<Step>, r: nat)
    requires r in Run(Start(clock), steps).requests
    ensures var s := Run(Start(clock), steps);
            var q := s.requests[r];
            var free := q.name !in s.table || s.table[q.name].expires <= s.clock;
            && (q.phase.Claiming? && free ==>
                  var t := Next(s, TryClaim(r));
                  && t.table == s.table[q.name := Record(s.nextId, q.hash, InProgress, Stored(None, None),
                                                         s.clock, s.clock + q.ttl)]
                  && t.requests[r].phase == Owning(s.nextId, s.clock, s.clock + q.ttl) && t.nextId == s.nextId + 1)
            && (q.phase.Claiming? && !free ==>
                  var t := Next(s, TryClaim(r)); t.table == s.table && t.requests[r].phase == Reading(q.phase.round))
            && (q.phase.Reading? && q.name in s.table ==>
                  var row := s.table[q.name];
                  var answer := Next(s, Read(r)).requests[r].phase;
                  && answer.Answered?
                  && (answer == Answered(KeyReused) <==> q.hash != row.hash)
                  && (answer == Answered(RequestInProgress) <==> q.hash == row.hash && row.status == InProgress)
                  && (answer.outcome.Replayed? <==> q.hash == row.hash && row.status == Completed)
                  && (answer.outcome.Replayed? ==>
                        row.stored == Stored(Some(answer.outcome.status), answer.outcome.body)))
            && (q.phase.Reading? && q.name !in s.table ==>
                  Next(s, Read(r)).requests[r].phase
                  == if q.phase.round < 2 then Claiming(q.phase.round + 1) else Answered(RequestInProgress))
  {
    hide Run;
    var s := Run(Start(clock), steps);
    Reached(clock, steps);
    var q := s.requests[r];
    if q.name in s.table && s.table[q.name].status == Completed {
      var i :| 0 <= i < |s.effects| && Recorded(s.effects[i], q.name, s.table[q.name]);
    }
  }

  /** An owner whose claim is still there commits, once and under its claim; one whose claim is gone commits nothing. */
  lemma OwnersCommit(clock: int, steps: seq<Step>, r: nat, status: nat, body: Option<int>, acknowledged: bool)
    requires r in Run(Start(clock), steps).requests && Run(Start(clock), steps).requests[r].phase.Owning?
    requires 100 <= status < 400
    ensures var s := Run(Start(clock), steps);
            var q := s.requests[r];
            var t := Next(s, Commit(r, status, body, acknowledged));
            var id, created, expires := q.phase.id, q.phase.created, q.phase.expires;
            var result := Stored(Some(status), body);
            if exists n :: n in s.table && s.table[n].id == id && s.table[n].status == InProgress then
              && t.table == s.table[q.name := Record(id, q.hash, Completed, result, created, expires)]
              && t.effects == s.effects + [Effect(id, q.name, q.hash, created, expires, s.clock, result)]
              && t.requests[r].phase == if acknowledged then Executed else Failing(id)
            else t.table == s.table && t.effects == s.effects && t.requests[r].phase == Failing(id)
  {
    hide Run, EffectsOk, Backed, Apart, Plain, ReplaysOk;
    var s := Run(Start(clock), steps);
    Reached(clock, steps);
    if Holds(s.table, s.requests[r].phase.id) { CompletesOwn(s, r, Stored(Some(status), body)); }
  }

  /** After a failed attempt gives its claim back, the next request under the key may execute. */
  lemma FailuresFreeTheKey(clock: int, steps: seq<Step>, r: nat, v: nat)
    requires var s := Run(Start(clock), steps);
             && r in s.requests && v in s.requests && v != r
             && s.requests[r].phase.Failing? && Holds(s.table, s.requests[r].phase.id)
             && s.requests[v].name == s.requests[r].name && s.requests[v].phase.Claiming?
    ensures var t := Next(Run(Start(clock), steps), GiveBack(r));
            && v in t.requests && t.requests[v].name !in t.table
            && Next(t, TryClaim(v)).requests[v].phase.Owning?
  {
    hide Run, EffectsOk, Backed, Apart, Plain, ReplaysOk;
    var s := Run(Start(clock), steps);
    Reached(clock, steps);
    assert OwnerOk(s.requests[r], s.table, s.nextId);
  }

  function SlowOwner(name: Name, hash: int, ttl: nat): seq<Step> {
    [Arrive(0, name, hash, ttl), TryClaim(0), Tick(ttl), Commit(0, 201, None, true),
     Arrive(1, name, hash, ttl), TryClaim(1), Commit(1, 201, None, true)]
  }

  const CREATED := Stored(Some(201), None)

  /** After the first four steps the slow owner has committed, and its record has just expired. */
  function SlowCommit(name: Name, hash: int, ttl: nat): State {
    State(ttl, 1, map[name := Record(0, hash, Completed, CREATED, 0, ttl)],
          map[0 := Request(name, hash, ttl, Executed)],
          [Effect(0, name, hash, 0, ttl, ttl, CREATED)], [])
  }

  lemma FirstOwner(name: Name, hash: int, ttl: nat)
    ensures Next(Next(Next(Next(Start(0), Arrive(0, name, hash, ttl)), TryClaim(0)), Tick(ttl)),
                 Commit(0, 201, None, true))
         == SlowCommit(name, hash, ttl)
  {
    var s := Next(Next(Next(Start(0), Arrive(0, name, hash, ttl)), TryClaim(0)), Tick(ttl));
    assert s == State(ttl, 1, map[name := Fresh(0, hash, 0, ttl)],
                      map[0 := Request(name, hash, ttl, Owning(0, 0, ttl))], [], []);
    assert Open(s.table[name], 0);
  }

  lemma SecondOwner(name: Name, hash: int, ttl: nat)
    ensures Next(Next(Next(SlowCommit(name, hash, ttl), Arrive(1, name, hash, ttl)), TryClaim(1)),
                 Commit(1, 201, None, true)).effects
         == [Effect(0, name, hash, 0, ttl, ttl, CREATED), Effect(1, name, hash, ttl, ttl + ttl, ttl, CREATED)]
  {
    var s := Next(Next(SlowCommit(name, hash, ttl), Arrive(1, name, hash, ttl)), TryClaim(1));
    assert s.table[name] == Fresh(1, hash, ttl, ttl);
    assert s.requests[1] == Request(name, hash, ttl, Owning(1, ttl, ttl + ttl));
    assert Open(s.table[name], 1);
  }

  /**
   The life time runs from the claim, not from the effect: an execution that lasts as long as the life
   time commits, and a retry at that very instant executes again.
   */
  lemma LifeTimeRunsFromTheClaim(name: Name, hash: int, ttl: nat)
    ensures var effects := Run(Start(0), SlowOwner(name, hash, ttl)).effects;
            && |effects| == 2 && effects[0].name == effects[1].name && effects[0].hash == effects[1].hash
            && effects[0].at == effects[1].at
  {
    hide Next, Run;
    var steps := SlowOwner(name, hash, ttl);
    RunNone(Start(0), steps);
    RunPrefix(Start(0), steps, 0);
    RunPrefix(Start(0), steps, 1);
    RunPrefix(Start(0), steps, 2);
    RunPrefix(Start(0), steps, 3);
    FirstOwner(name, hash, ttl);
    RunPrefix(Start(0), steps, 4);
    RunPrefix(Start(0), steps, 5);
    RunPrefix(Start(0), steps, 6);
    SecondOwner(name, hash, ttl);
    assert steps[..7] == steps;
  }

  lemma RunNone(s: State, steps: seq<Step>)
    ensures Run(s, steps[..0]) == s
  {
  }

  lemma RunPrefix(s: State, steps: seq<Step>, n: nat)
    requires n < |steps|
    ensures Run(s, steps[..n + 1]) == Next(Run(s, steps[..n]), steps[n])
  {
    assert steps[..n + 1][..n] == steps[..n];
  }
}
