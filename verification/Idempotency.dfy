/**
 The table of idempotency records. Each function is the effect of one SQL statement; the class runs
 the statements in place, and its `Claim` is the three-round claim loop.
 */
module Idempotency {
  import opened Seqs

  datatype Name = Name(scope: nat, key: nat)

  datatype Status = InProgress | Completed

  /** The stored columns of a result; both are null until the record completes. */
  datatype Stored = Stored(status: Option<nat>, body: Option<int>)

  const NOTHING := Stored(None, None)

  datatype Record = Record(
    id: nat, hash: int, status: Status, stored: Stored, created: int, expires: int)

  type Table = map<Name, Record>

  datatype Outcome =
    | Claimed(id: nat)
    | KeyReused
    | RequestInProgress
    | Replayed(status: nat, body: Option<int>)

  // ---------------------------------------------------------------- the statements

  /** The upsert writes when the key is free or its record has expired. */
  predicate Claimable(t: Table, name: Name, now: int) {
    name !in t || t[name].expires <= now
  }

  function Fresh(id: nat, hash: int, now: int, ttl: nat): Record {
    Record(id, hash, InProgress, NOTHING, now, now + ttl)
  }

  /** A record that `UPDATE` and `DELETE` on an open claim select. */
  predicate Open(r: Record, id: nat) { r.id == id && r.status == InProgress }

  function Complete(t: Table, id: nat, stored: Stored): Table {
    map n | n in t :: if Open(t[n], id) then t[n].(status := Completed, stored := stored) else t[n]
  }

  function Without(t: Table, id: nat): Table {
    map n | n in t && !Open(t[n], id) :: t[n]
  }

  function Purged(t: Table, now: int): Table {
    map n | n in t && !(t[n].expires < now) :: t[n]
  }

  /** `UPDATE` reports one row: the claim is still there and still open. */
  ghost predicate Holds(t: Table, id: nat) { exists n :: n in t && Open(t[n], id) }

  /** What a claim that could not write makes of the record it then reads. */
  function Verdict(r: Record, hash: int): Outcome {
    if r.hash != hash then KeyReused
    else if r.status == InProgress then RequestInProgress
    else
      var recorded := r.stored.status.Some? && r.stored.status.value != 0;
      Replayed(if recorded then r.stored.status.value else 200, r.stored.body)
  }

  // ---------------------------------------------------------------- what the statements do

  /** A release deletes exactly the open claim of that id, and its key can be claimed at once. */
  lemma ReleaseFreesTheKey(t: Table, id: nat, name: Name, now: int)
    ensures name in Without(t, id) <==> name in t && !(t[name].id == id && t[name].status == InProgress)
    ensures name in Without(t, id) ==> Without(t, id)[name] == t[name]
    ensures name in t && t[name].id == id && t[name].status == InProgress ==> Claimable(Without(t, id), name, now)
    ensures name in t && t[name].status == Completed ==> name in Without(t, id)
  {
  }

  /** A completion writes the result into the open claim of that id and touches nothing else. */
  lemma CompletionIsRecorded(t: Table, id: nat, stored: Stored, name: Name)
    ensures name in Complete(t, id, stored) <==> name in t
    ensures name in t && t[name].id == id && t[name].status == InProgress ==>
      Complete(t, id, stored)[name]
      == Record(id, t[name].hash, Completed, stored, t[name].created, t[name].expires)
    ensures name in t && !(t[name].id == id && t[name].status == InProgress) ==>
      Complete(t, id, stored)[name] == t[name]
  {
  }

  /** A purge deletes exactly the records that ran out, and no claim from then on can tell. */
  lemma PurgeIsInvisible(t: Table, now: int, name: Name, later: int)
    requires now <= later
    ensures name in Purged(t, now) <==> name in t && t[name].expires >= now
    ensures name in Purged(t, now) ==> Purged(t, now)[name] == t[name]
    ensures Claimable(Purged(t, now), name, later) <==> Claimable(t, name, later)
  {
  }

  // ---------------------------------------------------------------- in place

  /** A write of another session. */
  datatype Write =
    | Insert(name: Name, hash: int, ttl: nat, now: int)
    | Finish(id: nat, stored: Stored)
    | Release(id: nat)
    | Purge(now: int)

  const ROUNDS := 3

  class Records {
    var rows: Table
    var nextId: nat

    constructor ()
      ensures rows == map[] && nextId == 0
    {
      rows, nextId := map[], 0;
    }

    method InsertOrTakeOver(name: Name, hash: int, ttl: nat, now: int) returns (id: Option<nat>)
      modifies this
      ensures Claimable(old(rows), name, now) ==>
                && id == Some(old(nextId)) && nextId == old(nextId) + 1
                && rows == old(rows)[name := Fresh(old(nextId), hash, now, ttl)]
      ensures !Claimable(old(rows), name, now) ==> id == None && nextId == old(nextId) && rows == old(rows)
    {
      id := None;
      if name !in rows || rows[name].expires <= now {
        rows, id, nextId := rows[name := Fresh(nextId, hash, now, ttl)], Some(nextId), nextId + 1;
      }
    }

    method MarkCompleted(id: nat, stored: Stored) returns (ok: bool)
      requires forall n, m :: n in rows && m in rows && rows[n].id == rows[m].id ==> n == m
      modifies `rows
      ensures ok <==> Holds(old(rows), id)
      ensures rows == if ok then Complete(old(rows), id, stored) else old(rows)
    {
      var hit := set n | n in rows && Open(rows[n], id);
      forall n | n in hit ensures |hit| == 1 { assert hit == {n}; }
      ok := |hit| == 1;
      assert ok <==> Holds(rows, id) by {
        if hit == {} {
          assert forall n :: n in rows ==> n !in hit;
        } else {
          var n :| n in hit;
          assert n in rows && Open(rows[n], id);
        }
      }
      if ok { rows := Complete(rows, id, stored); }
    }

    method Discard(id: nat)
      modifies `rows
      ensures rows == Without(old(rows), id)
    {
      rows := Without(rows, id);
    }

    method PurgeExpired(now: int) returns (deleted: nat)
      modifies `rows
      ensures rows == Purged(old(rows), now)
      ensures deleted == |old(rows)| - |rows|
    {
      var expired := set n | n in rows && rows[n].expires < now;
      var kept := Purged(rows, now);
      assert rows.Keys == kept.Keys + expired && kept.Keys !! expired;
      assert |rows| == |rows.Keys| && |kept| == |kept.Keys|;
      deleted := |expired|;
      rows := kept;
    }

    /** Whatever other sessions commit between two statements of this one. */
    method Interfere(writes: seq<Write>)
      modifies this
      ensures nextId >= old(nextId)
    {
      for i := 0 to |writes|
        invariant nextId >= old(nextId)
      {
        match writes[i] {
          case Insert(name, hash, ttl, now) => var _ := InsertOrTakeOver(name, hash, ttl, now);
          case Finish(id, stored) => rows := Complete(rows, id, stored);
          case Release(id) => Discard(id);
          case Purge(now) => var _ := PurgeExpired(now);
        }
      }
    }

    /**
     Up to three rounds of upsert and read, the clock read once a round and other sessions' writes
     `between` the two. A claim is won with a fresh id on a key that is free or expired at that
     moment; every other answer is the verdict on the record read last, unless in all three rounds
     the record vanished between the statements.
     */
    method Claim(name: Name, hash: int, ttl: nat, clock: seq<int>, between: seq<seq<Write>>)
        returns (r: Outcome, round: nat)
      requires |clock| == |between| == ROUNDS
      modifies this
      ensures round < ROUNDS
      ensures r.Claimed? ==> old(nextId) <= r.id < nextId && name in rows
                             && rows[name] == Fresh(r.id, hash, clock[round], ttl)
      ensures !r.Claimed? && name in rows ==> r == Verdict(rows[name], hash)
      ensures !r.Claimed? && name in rows ==>
                && (r.KeyReused? <==> rows[name].hash != hash)
                && (r.RequestInProgress? <==> rows[name].hash == hash && rows[name].status == InProgress)
                && (r.Replayed? <==> rows[name].hash == hash && rows[name].status == Completed)
                && (r.Replayed? ==> r.body == rows[name].stored.body)
                && (r.Replayed? && rows[name].stored.status == None ==> r.status == 200)
                && (r.Replayed? && rows[name].stored.status.Some? && rows[name].stored.status.value > 0 ==>
                      r.status == rows[name].stored.status.value)
      ensures !r.Claimed? && name !in rows ==> r == RequestInProgress && round == ROUNDS - 1
    {
      round := 0;
      while round < ROUNDS
        invariant round <= ROUNDS && nextId >= old(nextId)
        invariant round == ROUNDS ==> name !in rows
        decreases ROUNDS - round
      {
        var id := InsertOrTakeOver(name, hash, ttl, clock[round]);
        if id.Some? { return Claimed(id.value), round; }
        Interfere(between[round]);
        if name in rows { return Verdict(rows[name], hash), round; }
        round := round + 1;
      }
      return RequestInProgress, ROUNDS - 1;
    }
  }
}
