/**
 Swapping profile images across a database and an object store. Each request moves through its own
 steps, any of which may fail; only the holder row's lock orders requests of one holder.
 */
module Images {
  import opened Seqs

  /** A stored file's row; rows are never deleted. */
  datatype File = File(key: nat, owner: nat, retired: bool)

  /** The committed database and the object store. */
  datatype Store = Store(pointers: map<nat, nat>, rows: map<nat, File>, objects: set<nat>)

  /** `committed` in `Cleaning` is what the request cannot see: that its failed commit took effect. */
  datatype Phase =
    | Begun
    | Ready(key: Option<nat>)
    | Holding(key: Option<nat>, displaced: Option<nat>)
    | Cleaning(key: Option<nat>, committed: bool)
    | Deleting(key: Option<nat>)
    | Finished
    | Failed

  datatype Request = Request(holder: nat, replace: bool, phase: Phase)

  datatype State = State(store: Store, requests: map<nat, Request>, nextKey: nat, nextId: nat)

  datatype Put = PutDone | PutLost | PutFailed

  datatype Commit = CommitDone | CommitLost | CommitFailed

  datatype Step =
    | Begin(r: nat, holder: nat, replace: bool)
    | PutObject(r: nat, put: Put)
    | LockHolder(r: nat)
    | Write(r: nat, commit: Commit)
    | Raise(r: nat)
    | CleanUp(r: nat, works: bool)
    | DeleteOld(r: nat, works: bool)
    | Crash(r: nat)

  function At(s: State, r: nat, phase: Phase): State
    requires r in s.requests
  {
    s.(requests := s.requests[r := s.requests[r].(phase := phase)])
  }

  predicate Locked(s: State, holder: nat) {
    exists r :: r in s.requests && s.requests[r].holder == holder && s.requests[r].phase.Holding?
  }

  function Unpointed(pointers: map<nat, nat>, holder: nat): map<nat, nat> {
    map h | h in pointers && h != holder :: pointers[h]
  }

  /** What one transaction writes: the new row, the pointer, and the displaced row's retirement. */
  function Written(d: Store, holder: nat, key: Option<nat>, displaced: Option<nat>, id: nat): Store {
    var rows := if displaced.Some? && displaced.value in d.rows
                then d.rows[displaced.value := d.rows[displaced.value].(retired := true)] else d.rows;
    if key.Some? then Store(d.pointers[holder := id], rows[id := File(key.value, holder, false)], d.objects)
    else Store(Unpointed(d.pointers, holder), rows, d.objects)
  }

  function Removed(d: Store, key: Option<nat>, works: bool): Store {
    if key.Some? && works then d.(objects := d.objects - {key.value}) else d
  }

  function KeyOf(d: Store, id: Option<nat>): Option<nat> {
    if id.Some? && id.value in d.rows then Some(d.rows[id.value].key) else None
  }

  /** A step that is not enabled does nothing. */
  function Next(s: State, step: Step): State {
    match step
    case Begin(r, holder, replace) =>
      if r in s.requests then s
      else s.(requests := s.requests[r := Request(holder, replace, if replace then Begun else Ready(None))])
    case PutObject(r, put) =>
      if !(r in s.requests && s.requests[r].phase.Begun?) then s
      else
        var t := s.(nextKey := s.nextKey + 1);
        var stored := t.(store := t.store.(objects := t.store.objects + {s.nextKey}));
        (match put
         case PutDone => At(stored, r, Ready(Some(s.nextKey)))
         case PutLost => At(stored, r, Failed)
         case PutFailed => At(t, r, Failed))
    case LockHolder(r) =>
      if !(r in s.requests && s.requests[r].phase.Ready?) || Locked(s, s.requests[r].holder) then s
      else
        var h := s.requests[r].holder;
        At(s, r, Holding(s.requests[r].phase.key, if h in s.store.pointers then Some(s.store.pointers[h]) else None))
    case Write(r, commit) =>
      if !(r in s.requests && s.requests[r].phase.Holding?) then s
      else
        var q := s.requests[r];
        var t := s.(store := Written(s.store, q.holder, q.phase.key, q.phase.displaced, s.nextId),
                          nextId := s.nextId + 1);
        (match commit
         case CommitDone => At(t, r, Deleting(KeyOf(s.store, q.phase.displaced)))
         case CommitLost => At(t, r, Cleaning(q.phase.key, true))
         case CommitFailed => At(s, r, Cleaning(q.phase.key, false)))
    case Raise(r) =>
      if !(r in s.requests && (s.requests[r].phase.Holding? || s.requests[r].phase.Ready?)) then s
      else At(s, r, Cleaning(s.requests[r].phase.key, false))
    case CleanUp(r, works) =>
      if !(r in s.requests && s.requests[r].phase.Cleaning?) then s
      else At(s.(store := Removed(s.store, s.requests[r].phase.key, works)), r, Failed)
    case DeleteOld(r, works) =>
      if !(r in s.requests && s.requests[r].phase.Deleting?) then s
      else At(s.(store := Removed(s.store, s.requests[r].phase.key, works)), r, Finished)
    case Crash(r) => if r in s.requests then At(s, r, Failed) else s
  }

  function Run(s: State, steps: seq<Step>): State {
    if steps == [] then s else Next(Run(s, steps[..|steps| - 1]), steps[|steps| - 1])
  }

  function Start(): State { State(Store(map[], map[], {}), map[], 0, 0) }

  // ---------------------------------------------------------------- one request, in place

  /** What goes wrong in one request. */
  datatype Faults = Faults(put: Put, body: bool, commit: Commit, cleanUp: bool, deleteOld: bool)

  /** The steps of a request that meets no other; the ones it does not reach do nothing. */
  function Alone(d: Store, nextKey: nat, nextId: nat, holder: nat, replace: bool, f: Faults): Store {
    Locking(Next(Next(State(d, map[], nextKey, nextId), Begin(0, holder, replace)), PutObject(0, f.put)), f)
  }

  function Locking(s: State, f: Faults): Store {
    var written := Next(Next(s, LockHolder(0)), if f.body then Raise(0) else Write(0, f.commit));
    Next(Next(written, CleanUp(0, f.cleanUp)), DeleteOld(0, f.deleteOld)).store
  }

  function PointerOf(d: Store, holder: nat): Option<nat> {
    if holder in d.pointers then Some(d.pointers[holder]) else None
  }

  /** The committed store after one request. */
  function Swapped(d: Store, nextKey: nat, nextId: nat, holder: nat, replace: bool, f: Faults): Store {
    var stored := if replace && f.put != PutFailed then d.(objects := d.objects + {nextKey}) else d;
    var key := if replace then Some(nextKey) else None;
    var written := Written(stored, holder, key, PointerOf(d, holder), nextId);
    if replace && f.put != PutDone then stored
    else if f.body || f.commit == CommitFailed then Removed(stored, key, f.cleanUp)
    else if f.commit == CommitLost then Removed(written, key, f.cleanUp)
    else Removed(written, KeyOf(d, PointerOf(d, holder)), f.deleteOld)
  }

  /** A request that meets no other is its steps in order. */
  lemma AloneIsSwapped(d: Store, nextKey: nat, nextId: nat, holder: nat, replace: bool, f: Faults)
    ensures Alone(d, nextKey, nextId, holder, replace, f) == Swapped(d, nextKey, nextId, holder, replace, f)
  {
    hide Written, Removed, Locking;
    var s0 := Next(State(d, map[], nextKey, nextId), Begin(0, holder, replace));
    assert s0.requests == map[0 := Request(holder, replace, if replace then Begun else Ready(None))];
    var s1 := Next(s0, PutObject(0, f.put));
    var after := if f.put == PutDone then Ready(Some(nextKey)) else Failed;
    assert replace ==> s1.requests == map[0 := Request(holder, true, after)];
    if replace && f.put != PutDone {
      IdleAlone(s1, f);
    } else {
      LockedAlone(s1, holder, if replace then Some(nextKey) else None, f);
    }
  }

  lemma IdleAlone(s: State, f: Faults)
    requires s.requests.Keys == {0} && s.requests[0].phase == Failed
    ensures Locking(s, f) == s.store
  {
  }

  lemma LockedAlone(s: State, holder: nat, key: Option<nat>, f: Faults)
    requires s.requests.Keys == {0} && s.requests[0].holder == holder && s.requests[0].phase == Ready(key)
    ensures Locking(s, f)
         == if f.body || f.commit == CommitFailed then Removed(s.store, key, f.cleanUp)
            else if f.commit == CommitLost
            then Removed(Written(s.store, holder, key, PointerOf(s.store, holder), s.nextId), key, f.cleanUp)
            else Removed(Written(s.store, holder, key, PointerOf(s.store, holder), s.nextId),
                         KeyOf(s.store, PointerOf(s.store, holder)), f.deleteOld)
  {
    hide Written, Removed, KeyOf;
    var t := Next(s, LockHolder(0));
    assert !Locked(s, holder);
    assert t.requests[0].phase == Holding(key, PointerOf(s.store, holder));
  }

  class Profiles {
    var pointers: map<nat, nat>
    var rows: map<nat, File>
    var objects: set<nat>
    var nextKey: nat
    var nextId: nat

    function Contents(): Store
      reads this
    {
      Store(pointers, rows, objects)
    }

    /** The new object first, then the transaction, and only then the displaced object. */
    method Swap(holder: nat, replace: bool, f: Faults) returns (ok: bool)
      modifies this
      ensures Contents() == Swapped(old(Contents()), old(nextKey), old(nextId), holder, replace, f)
      ensures ok <==> (replace ==> f.put == PutDone) && !f.body && f.commit == CommitDone
    {
      var newKey := None;
      if replace {
        if f.put != PutFailed { objects := objects + {nextKey}; }
        if f.put == PutDone { newKey := Some(nextKey); }
        nextKey := nextKey + 1;
        if f.put != PutDone { return false; }
      }
      var oldPointers, oldRows, oldKey := pointers, rows, None;
      if !f.body {
        if holder in pointers && pointers[holder] in rows {
          var id := pointers[holder];
          oldKey := Some(rows[id].key);
          rows := rows[id := rows[id].(retired := true)];
        }
        if newKey.Some? {
          rows := rows[nextId := File(newKey.value, holder, false)];
          pointers := pointers[holder := nextId];
          nextId := nextId + 1;
        } else {
          pointers := Unpointed(pointers, holder);
        }
      }
      ok := !f.body && f.commit == CommitDone;
      if f.body || f.commit == CommitFailed {
        pointers, rows := oldPointers, oldRows;
      }
      if !ok {
        if newKey.Some? && f.cleanUp { objects := objects - {newKey.value}; }
      } else if oldKey.Some? && f.deleteOld {
        objects := objects - {oldKey.value};
      }
    }
  }

  // ---------------------------------------------------------------- what must hold

  /** A holder shows an active file of its own. */
  ghost predicate Points(d: Store, h: nat)
    requires h in d.pointers
  {
    var id := d.pointers[h];
    id in d.rows && d.rows[id].owner == h && !d.rows[id].retired
  }

  ghost predicate PointersOk(d: Store) { forall h :: h in d.pointers ==> Points(d, h) }

  /** And the file's object exists. */
  ghost predicate ShownTo(d: Store, h: nat)
    requires h in d.pointers
  {
    Points(d, h) && d.rows[d.pointers[h]].key in d.objects
  }

  ghost predicate Shown(d: Store) { forall h :: h in d.pointers ==> ShownTo(d, h) }

  /** A holder's only active file is the one its pointer names. */
  ghost predicate OneActive(d: Store) {
    forall id :: id in d.rows && !d.rows[id].retired ==>
      d.rows[id].owner in d.pointers && d.pointers[d.rows[id].owner] == id
  }

  ghost predicate RowsOk(d: Store, nextKey: nat, nextId: nat) {
    && (forall id :: id in d.rows ==> id < nextId && d.rows[id].key < nextKey)
    && (forall x, y :: x in d.rows && y in d.rows && d.rows[x].key == d.rows[y].key ==> x == y)
  }

  ghost predicate Unused(d: Store, key: nat) { forall id :: id in d.rows ==> d.rows[id].key != key }

  ghost predicate RetiredKey(d: Store, key: nat) {
    exists id :: id in d.rows && d.rows[id].key == key && d.rows[id].retired
  }

  /** The key a request still means to use is stored and unused; one it means to delete shows nowhere. */
  ghost predicate RequestOk(d: Store, q: Request, nextKey: nat) {
    match q.phase
    case Ready(Some(key)) => key < nextKey && key in d.objects && Unused(d, key)
    case Holding(key, displaced) =>
      && (key.Some? ==> key.value < nextKey && key.value in d.objects && Unused(d, key.value))
      && displaced == (if q.holder in d.pointers then Some(d.pointers[q.holder]) else None)
    case Cleaning(Some(key), committed) => key < nextKey && (committed <==> !Unused(d, key))
    case Deleting(Some(key)) => key < nextKey && RetiredKey(d, key)
    case _ => true
  }

  function KeyHeld(q: Request): Option<nat> {
    match q.phase
    case Ready(key) => key
    case Holding(key, _) => key
    case Cleaning(key, committed) => if committed then None else key
    case _ => None
  }

  ghost predicate EachOk(d: Store, requests: map<nat, Request>, nextKey: nat) {
    forall r :: r in requests ==> RequestOk(d, requests[r], nextKey)
  }

  ghost predicate KeysApart(requests: map<nat, Request>) {
    forall r, v | r in requests && v in requests ::
      KeyHeld(requests[r]).Some? && KeyHeld(requests[r]) == KeyHeld(requests[v]) ==> r == v
  }

  /** The lock: one request a holder between the read of the pointer and the commit. */
  ghost predicate OneHolding(requests: map<nat, Request>) {
    forall r, v | r in requests && v in requests && requests[r].phase.Holding? && requests[v].phase.Holding? ::
      requests[r].holder == requests[v].holder ==> r == v
  }

  /** What every run keeps, whatever fails. */
  ghost predicate Inv(s: State) {
    && PointersOk(s.store) && OneActive(s.store) && RowsOk(s.store, s.nextKey, s.nextId)
    && EachOk(s.store, s.requests, s.nextKey) && KeysApart(s.requests) && OneHolding(s.requests)
  }

  // ---------------------------------------------------------------- every step keeps it

  lemma Replaced(requests: map<nat, Request>, r: nat, q: Request)
    requires KeysApart(requests) && OneHolding(requests)
    requires KeyHeld(q).Some? ==> forall v :: v in requests && v != r ==> KeyHeld(requests[v]) != KeyHeld(q)
    requires q.phase.Holding? ==>
               forall v :: v in requests && v != r && requests[v].phase.Holding? ==> requests[v].holder != q.holder
    ensures KeysApart(requests[r := q]) && OneHolding(requests[r := q])
  {
  }

  /** A request that keeps its key, or lets go of it, and takes no lock. */
  lemma MovedOn(s: State, r: nat, q: Request)
    requires Inv(s) && RequestOk(s.store, q, s.nextKey) && !q.phase.Holding?
    requires KeyHeld(q).Some? ==> r in s.requests && KeyHeld(s.requests[r]) == KeyHeld(q)
    ensures Inv(s.(requests := s.requests[r := q]))
  {
  }

  lemma HeldIsOld(s: State, v: nat)
    requires EachOk(s.store, s.requests, s.nextKey) && v in s.requests && KeyHeld(s.requests[v]).Some?
    ensures KeyHeld(s.requests[v]).value < s.nextKey && Unused(s.store, KeyHeld(s.requests[v]).value)
  {
  }

  /** A new object under a new key, whatever becomes of the request. */
  lemma Stored(s: State)
    requires Inv(s)
    ensures Inv(s.(store := s.store.(objects := s.store.objects + {s.nextKey}), nextKey := s.nextKey + 1))
  {
  }

  lemma LaterKey(s: State)
    requires Inv(s)
    ensures Inv(s.(nextKey := s.nextKey + 1))
  {
  }

  lemma PutKeeps(s: State, r: nat, put: Put)
    requires Inv(s) && r in s.requests && s.requests[r].phase.Begun?
    ensures Inv(Next(s, PutObject(r, put)))
  {
    hide PointersOk, OneActive, EachOk, KeysApart, OneHolding;
    var q := s.requests[r];
    var t := s.(store := s.store.(objects := s.store.objects + {s.nextKey}), nextKey := s.nextKey + 1);
    match put
    case PutDone =>
      Stored(s);
      forall v | v in s.requests && KeyHeld(s.requests[v]).Some? ensures KeyHeld(s.requests[v]).value < s.nextKey {
        HeldIsOld(s, v);
      }
      Replaced(t.requests, r, q.(phase := Ready(Some(s.nextKey))));
      EachReplaced(t, r, q.(phase := Ready(Some(s.nextKey))));
    case PutLost =>
      Stored(s);
      MovedOn(t, r, q.(phase := Failed));
    case PutFailed =>
      LaterKey(s);
      MovedOn(s.(nextKey := s.nextKey + 1), r, q.(phase := Failed));
  }

  lemma EachReplaced(s: State, r: nat, q: Request)
    requires EachOk(s.store, s.requests, s.nextKey) && RequestOk(s.store, q, s.nextKey)
    ensures EachOk(s.store, s.requests[r := q], s.nextKey)
  {
  }

  lemma LockKeeps(s: State, r: nat)
    requires Inv(s) && r in s.requests && s.requests[r].phase.Ready? && !Locked(s, s.requests[r].holder)
    ensures Inv(Next(s, LockHolder(r)))
  {
  }

  lemma WrittenPoints(d: Store, q: Request, id: nat, nextKey: nat)
    requires PointersOk(d) && OneActive(d) && RowsOk(d, nextKey, id) && q.phase.Holding? && RequestOk(d, q, nextKey)
    ensures PointersOk(Written(d, q.holder, q.phase.key, q.phase.displaced, id))
  {
  }

  lemma WrittenActive(d: Store, q: Request, id: nat, nextKey: nat)
    requires PointersOk(d) && OneActive(d) && RowsOk(d, nextKey, id) && q.phase.Holding? && RequestOk(d, q, nextKey)
    ensures OneActive(Written(d, q.holder, q.phase.key, q.phase.displaced, id))
  {
  }

  lemma WrittenRows(d: Store, q: Request, id: nat, nextKey: nat)
    requires RowsOk(d, nextKey, id) && q.phase.Holding? && RequestOk(d, q, nextKey)
    ensures RowsOk(Written(d, q.holder, q.phase.key, q.phase.displaced, id), nextKey, id + 1)
  {
  }

  lemma WrittenStore(s: State, r: nat)
    requires Inv(s) && r in s.requests && s.requests[r].phase.Holding?
    ensures var q := s.requests[r];
            var d := Written(s.store, q.holder, q.phase.key, q.phase.displaced, s.nextId);
            PointersOk(d) && OneActive(d) && RowsOk(d, s.nextKey, s.nextId + 1)
  {
    hide PointersOk, OneActive, RowsOk, RequestOk, Written, KeysApart, OneHolding;
    var q := s.requests[r];
    assert RequestOk(s.store, q, s.nextKey);
    WrittenPoints(s.store, q, s.nextId, s.nextKey);
    WrittenActive(s.store, q, s.nextId, s.nextKey);
    WrittenRows(s.store, q, s.nextId, s.nextKey);
  }

  /** What the other requests rely on survives a transaction under another lock. */
  lemma WrittenFor(s: State, r: nat, v: nat)
    requires Inv(s) && r in s.requests && s.requests[r].phase.Holding? && v in s.requests && v != r
    ensures var q := s.requests[r];
            RequestOk(Written(s.store, q.holder, q.phase.key, q.phase.displaced, s.nextId), s.requests[v], s.nextKey)
  {
    hide PointersOk, OneActive;
    var q, w := s.requests[r], s.requests[v];
    var d := Written(s.store, q.holder, q.phase.key, q.phase.displaced, s.nextId);
    assert RequestOk(s.store, q, s.nextKey) && RequestOk(s.store, w, s.nextKey);
    if w.phase.Deleting? && w.phase.key.Some? {
      var id :| id in s.store.rows && s.store.rows[id].key == w.phase.key.value && s.store.rows[id].retired;
      assert id in d.rows && d.rows[id].key == w.phase.key.value && d.rows[id].retired;
    }
    if w.phase.Cleaning? && w.phase.committed && w.phase.key.Some? {
      var id :| id in s.store.rows && s.store.rows[id].key == w.phase.key.value;
      assert id in d.rows && d.rows[id].key == w.phase.key.value;
    }
  }

  /** The committing request afterwards: it deletes what it displaced, or it does not know. */
  lemma WrittenOwn(s: State, r: nat, commit: Commit)
    requires Inv(s) && r in s.requests && s.requests[r].phase.Holding? && commit != CommitFailed
    ensures var z := Next(s, Write(r, commit)); RequestOk(z.store, z.requests[r], s.nextKey)
  {
    hide PointersOk, OneActive, KeysApart, OneHolding;
    var q := s.requests[r];
    assert RequestOk(s.store, q, s.nextKey);
    var d := Written(s.store, q.holder, q.phase.key, q.phase.displaced, s.nextId);
    if commit == CommitLost && q.phase.key.Some? {
      assert s.nextId in d.rows && d.rows[s.nextId].key == q.phase.key.value;
    }
    if KeyOf(s.store, q.phase.displaced).Some? {
      var id := q.phase.displaced.value;
      assert id in d.rows && d.rows[id].retired && d.rows[id].key == s.store.rows[id].key;
    }
  }

  lemma WriteKeeps(s: State, r: nat, commit: Commit)
    requires Inv(s) && r in s.requests && s.requests[r].phase.Holding? && commit != CommitFailed
    ensures Inv(Next(s, Write(r, commit)))
  {
    hide PointersOk, OneActive, RowsOk, RequestOk, Written, KeysApart, OneHolding;
    var q := s.requests[r];
    var z := Next(s, Write(r, commit));
    WrittenStore(s, r);
    forall v | v in z.requests ensures RequestOk(z.store, z.requests[v], z.nextKey) {
      if v == r { WrittenOwn(s, r, commit); } else { WrittenFor(s, r, v); }
    }
    Replaced(s.requests, r, z.requests[r]);
  }

  /** Nothing another request still means to use is under the key that this one deletes. */
  lemma RemovedFor(s: State, r: nat, v: nat)
    requires Inv(s) && r in s.requests && v in s.requests && v != r
    requires s.requests[r].phase.Deleting? || s.requests[r].phase.Cleaning?
    ensures RequestOk(Removed(s.store, s.requests[r].phase.key, true), s.requests[v], s.nextKey)
  {
    hide PointersOk, OneActive, OneHolding;
    assert RequestOk(s.store, s.requests[r], s.nextKey) && RequestOk(s.store, s.requests[v], s.nextKey);
  }

  lemma RemovedKeeps(s: State, r: nat, works: bool, phase: Phase)
    requires Inv(s) && r in s.requests && (phase == Failed || phase == Finished)
    requires s.requests[r].phase.Deleting? || s.requests[r].phase.Cleaning?
    ensures Inv(At(s.(store := Removed(s.store, s.requests[r].phase.key, works)), r, phase))
  {
    hide RequestOk, KeyHeld;
    var d := Removed(s.store, s.requests[r].phase.key, works);
    var q := s.requests[r].(phase := phase);
    Ended(d, q, s.nextKey);
    forall v | v in s.requests && v != r ensures RequestOk(d, s.requests[v], s.nextKey) { RemovedFor(s, r, v); }
    Replaced(s.requests, r, q);
  }

  lemma Ended(d: Store, q: Request, nextKey: nat)
    requires q.phase == Failed || q.phase == Finished
    ensures RequestOk(d, q, nextKey) && KeyHeld(q) == None
  {
  }

  lemma NextKeeps(s: State, step: Step)
    requires Inv(s)
    ensures Inv(Next(s, step))
  {
    hide Inv;
    match step
    case Begin(r, holder, replace) => if r !in s.requests { Moves(s, r, Next(s, step).requests[r]); }
    case PutObject(r, put) => if r in s.requests && s.requests[r].phase.Begun? { PutKeeps(s, r, put); }
    case LockHolder(r) =>
      if r in s.requests && s.requests[r].phase.Ready? && !Locked(s, s.requests[r].holder) { LockKeeps(s, r); }
    case Write(r, commit) =>
      if r in s.requests && s.requests[r].phase.Holding? {
        if commit == CommitFailed { Moves(s, r, Next(s, step).requests[r]); } else { WriteKeeps(s, r, commit); }
      }
    case Raise(r) =>
      if r in s.requests && (s.requests[r].phase.Holding? || s.requests[r].phase.Ready?) {
        Moves(s, r, Next(s, step).requests[r]);
      }
    case CleanUp(r, works) => if r in s.requests && s.requests[r].phase.Cleaning? { RemovedKeeps(s, r, works, Failed); }
    case DeleteOld(r, works) =>
      if r in s.requests && s.requests[r].phase.Deleting? { RemovedKeeps(s, r, works, Finished); }
    case Crash(r) => if r in s.requests { Moves(s, r, s.requests[r].(phase := Failed)); }
  }

  /** A request that starts, gives up, or turns from its lock to its clean-up. */
  lemma Moves(s: State, r: nat, q: Request)
    requires Inv(s)
    requires q.phase.Begun? || q.phase == Ready(None) || q.phase.Failed?
             || (r in s.requests && (s.requests[r].phase.Holding? || s.requests[r].phase.Ready?)
                 && q == s.requests[r].(phase := Cleaning(s.requests[r].phase.key, false)))
    ensures Inv(s.(requests := s.requests[r := q]))
  {
  }

  lemma {:induction false} RunKeeps(steps: seq<Step>)
    ensures Inv(Run(Start(), steps))
  {
    hide Next;
    if steps != [] {
      hide Inv;
      RunKeeps(steps[..|steps| - 1]);
      NextKeeps(Run(Start(), steps[..|steps| - 1]), steps[|steps| - 1]);
    }
  }

  // ---------------------------------------------------------------- what it is for

  /**
   Through any interleaving of swaps and any failure at all, every pointer names an active file of its
   holder, and a holder has no other active file.
   */
  lemma PointersAreSafe(steps: seq<Step>)
    ensures PointersOk(Run(Start(), steps).store) && OneActive(Run(Start(), steps).store)
  {
    hide Run;
    RunKeeps(steps);
  }

  /** A commit that took effect was reported as failed, and the clean-up now deletes what it wrote. */
  predicate DeletesCommitted(s: State, step: Step) {
    step.CleanUp? && step.works && step.r in s.requests && s.requests[step.r].phase.Cleaning?
    && s.requests[step.r].phase.committed && s.requests[step.r].phase.key.Some?
  }

  /** The keys that such clean-ups deleted. */
  function Lost(steps: seq<Step>): set<nat> {
    if steps == [] then {}
    else
      var s := Run(Start(), steps[..|steps| - 1]);
      var step := steps[|steps| - 1];
      Lost(steps[..|steps| - 1]) + if DeletesCommitted(s, step) then {s.requests[step.r].phase.key.value} else {}
  }

  /** Active files have their objects but for the lost keys; those are keys of rows. */
  ghost predicate Exact(d: Store, lost: set<nat>) {
    && (forall id :: id in d.rows && !d.rows[id].retired ==> (d.rows[id].key in d.objects <==> d.rows[id].key !in lost))
    && (forall key :: key in lost ==> !Unused(d, key))
  }

  lemma RemovedExact(s: State, step: Step, lost: set<nat>)
    requires Inv(s) && Exact(s.store, lost) && (step.CleanUp? || step.DeleteOld?)
    ensures Exact(Next(s, step).store,
                  lost + if DeletesCommitted(s, step) then {s.requests[step.r].phase.key.value} else {})
  {
    hide PointersOk, OneActive, KeysApart, OneHolding;
    if step.r in s.requests { assert RequestOk(s.store, s.requests[step.r], s.nextKey); }
  }

  lemma WrittenExact(s: State, r: nat, lost: set<nat>)
    requires Inv(s) && Exact(s.store, lost) && r in s.requests && s.requests[r].phase.Holding?
    ensures var q := s.requests[r];
            Exact(Written(s.store, q.holder, q.phase.key, q.phase.displaced, s.nextId), lost)
  {
    hide PointersOk, OneActive, KeysApart, OneHolding;
    var q := s.requests[r];
    var d := Written(s.store, q.holder, q.phase.key, q.phase.displaced, s.nextId);
    assert RequestOk(s.store, q, s.nextKey);
    forall key | key in lost ensures !Unused(d, key) {
      var id :| id in s.store.rows && s.store.rows[id].key == key;
      assert id in d.rows && d.rows[id].key == key;
    }
  }

  lemma StoredExact(d: Store, lost: set<nat>, nextKey: nat, nextId: nat)
    requires Exact(d, lost) && RowsOk(d, nextKey, nextId)
    ensures Exact(d.(objects := d.objects + {nextKey}), lost)
  {
  }

  lemma NextExact(s: State, step: Step, lost: set<nat>)
    requires Inv(s) && Exact(s.store, lost)
    ensures Exact(Next(s, step).store,
                  lost + if DeletesCommitted(s, step) then {s.requests[step.r].phase.key.value} else {})
  {
    hide Exact, Written, PointersOk, OneActive, EachOk, KeysApart, OneHolding;
    if step.CleanUp? || step.DeleteOld? {
      RemovedExact(s, step, lost);
    } else {
      assert lost + {} == lost;
      StoredExact(s.store, lost, s.nextKey, s.nextId);
      if step.Write? && step.r in s.requests && s.requests[step.r].phase.Holding? { WrittenExact(s, step.r, lost); }
    }
  }

  lemma {:induction false} RunExact(steps: seq<Step>)
    ensures Exact(Run(Start(), steps).store, Lost(steps))
  {
    hide Next, DeletesCommitted;
    if steps != [] {
      hide Exact;
      var rest := steps[..|steps| - 1];
      RunExact(rest);
      RunKeeps(rest);
      NextExact(Run(Start(), rest), steps[|steps| - 1], Lost(rest));
    }
  }

  /**
   After any run a holder's picture is there if and only if no clean-up after a commit reported as failed
   has deleted this very file. Earlier files lost that way, and other holders', do not matter.
   */
  lemma ShownUnlessLost(steps: seq<Step>, h: nat)
    requires h in Run(Start(), steps).store.pointers
    ensures var d := Run(Start(), steps).store;
            Points(d, h) && (ShownTo(d, h) <==> d.rows[d.pointers[h]].key !in Lost(steps))
  {
    hide Run, Lost;
    RunKeeps(steps);
    RunExact(steps);
    assert Points(Run(Start(), steps).store, h);
  }

  ghost predicate PointedKey(d: Store, key: nat) {
    exists h :: h in d.pointers && d.pointers[h] in d.rows && d.rows[d.pointers[h]].key == key
  }

  /** The step deletes a file on show. */
  ghost predicate Harms(s: State, step: Step) {
    DeletesCommitted(s, step) && PointedKey(s.store, s.requests[step.r].phase.key.value)
  }

  /** From a state in which everything is shown, exactly such a step breaks that. */
  lemma BrokenExactlyByLostCommit(s: State, step: Step)
    requires Inv(s) && Shown(s.store)
    ensures !Shown(Next(s, step).store) <==> Harms(s, step)
  {
    if DeletesCommitted(s, step) {
      hide EachOk, KeysApart, OneHolding, RowsOk, OneActive;
      var key := s.requests[step.r].phase.key.value;
      var d := Next(s, step).store;
      assert d == s.store.(objects := s.store.objects - {key});
      if PointedKey(s.store, key) {
        var h :| h in s.store.pointers && s.store.pointers[h] in s.store.rows
               && s.store.rows[s.store.pointers[h]].key == key;
        assert !ShownTo(d, h);
      } else {
        forall h | h in d.pointers ensures ShownTo(d, h) { assert ShownTo(s.store, h); }
      }
    } else {
      hide Next, Inv;
      OthersShow(s, step);
    }
  }

  lemma OthersShow(s: State, step: Step)
    requires Inv(s) && Shown(s.store) && !DeletesCommitted(s, step)
    ensures Shown(Next(s, step).store)
  {
    hide Next, EachOk, KeysApart, OneHolding, RowsOk, Unused;
    NextKeeps(s, step);
    AllThere(s.store);
    NextThere(s, step);
    var d := Next(s, step).store;
    forall h | h in d.pointers ensures ShownTo(d, h) { assert Points(d, h); }
  }

  /** Every active file has its object. */
  ghost predicate There(d: Store) { forall id :: id in d.rows && !d.rows[id].retired ==> d.rows[id].key in d.objects }

  lemma AllThere(d: Store)
    requires PointersOk(d) && OneActive(d) && Shown(d)
    ensures There(d)
  {
    forall id | id in d.rows && !d.rows[id].retired ensures d.rows[id].key in d.objects {
      assert ShownTo(d, d.rows[id].owner);
    }
  }

  lemma NextThere(s: State, step: Step)
    requires Inv(s) && There(s.store) && !DeletesCommitted(s, step)
    ensures There(Next(s, step).store)
  {
    assert Exact(s.store, {});
    hide Inv, Next, DeletesCommitted;
    var none: set<nat> := {};
    NextExact(s, step, none);
    assert none + {} == none;
  }

  ghost predicate AllShown(steps: seq<Step>) {
    Shown(Run(Start(), steps).store) && (steps != [] ==> AllShown(steps[..|steps| - 1]))
  }

  ghost predicate NoneHarms(steps: seq<Step>) {
    steps == []
    || (NoneHarms(steps[..|steps| - 1]) && !Harms(Run(Start(), steps[..|steps| - 1]), steps[|steps| - 1]))
  }

  lemma NothingToShow()
    ensures AllShown([]) && NoneHarms([])
  {
  }

  lemma {:induction false} ShownUnlessHarmed(steps: seq<Step>)
    ensures AllShown(steps) <==> NoneHarms(steps)
  {
    hide Harms, Shown, Next, Inv;
    if steps == [] {
      NothingToShow();
    } else {
      var rest := steps[..|steps| - 1];
      ShownUnlessHarmed(rest);
      RunKeeps(rest);
      if Shown(Run(Start(), rest).store) { BrokenExactlyByLostCommit(Run(Start(), rest), steps[|steps| - 1]); }
    }
  }

  lemma {:induction false} AllShownIs(steps: seq<Step>)
    ensures AllShown(steps) <==> forall k :: 0 <= k <= |steps| ==> Shown(Run(Start(), steps[..k]).store)
  {
    hide Run, Shown;
    assert steps[..|steps|] == steps;
    if steps != [] {
      var rest := steps[..|steps| - 1];
      AllShownIs(rest);
      assert forall k :: 0 <= k <= |rest| ==> rest[..k] == steps[..k];
    }
  }

  lemma {:induction false} NoneHarmsIs(steps: seq<Step>)
    ensures NoneHarms(steps) <==> forall k :: 0 <= k < |steps| ==> !Harms(Run(Start(), steps[..k]), steps[k])
  {
    hide Run, Harms;
    if steps != [] {
      var rest := steps[..|steps| - 1];
      NoneHarmsIs(rest);
      assert forall k :: 0 <= k < |rest| ==> rest[..k] == steps[..k] && rest[k] == steps[k];
    }
  }

  /**
   Every picture is there throughout a run if and only if no step of it deletes, after a commit reported
   as failed, a file on show.
   */
  lemma ShownThroughout(steps: seq<Step>)
    ensures (forall k :: 0 <= k <= |steps| ==> Shown(Run(Start(), steps[..k]).store))
       <==> (forall k :: 0 <= k < |steps| ==> !Harms(Run(Start(), steps[..k]), steps[k]))
  {
    hide Run, Harms, Shown, AllShown, NoneHarms;
    AllShownIs(steps);
    ShownUnlessHarmed(steps);
    NoneHarmsIs(steps);
  }

  function LostReply(r: nat, holder: nat): seq<Step> {
    [Begin(r, holder, true), PutObject(r, PutDone), LockHolder(r), Write(r, CommitLost), CleanUp(r, true)]
  }

  /** And it happens: one replacement whose commit takes effect but raises leaves a pointer without an object. */
  lemma LostReplyBreaks(r: nat, holder: nat)
    ensures !Shown(Run(Start(), LostReply(r, holder)).store)
  {
    hide Run, Next, Shown;
    var steps := LostReply(r, holder);
    RunNone(steps);
    RunPrefix(steps, 0);
    RunPrefix(steps, 1);
    RunPrefix(steps, 2);
    RunPrefix(steps, 3);
    RunPrefix(steps, 4);
    LostReplyRuns(r, holder);
    assert steps[..5] == steps;
  }

  lemma LostReplyRuns(r: nat, holder: nat)
    ensures !Shown(Next(Next(Next(Next(Next(Start(), Begin(r, holder, true)), PutObject(r, PutDone)), LockHolder(r)),
                                  Write(r, CommitLost)), CleanUp(r, true)).store)
  {
    var s2 := Next(Next(Start(), Begin(r, holder, true)), PutObject(r, PutDone));
    assert s2.requests == map[r := Request(holder, true, Ready(Some(0)))];
    var s4 := Next(Next(s2, LockHolder(r)), Write(r, CommitLost));
    assert s4.requests[r].phase == Cleaning(Some(0), true);
    var d := Next(s4, CleanUp(r, true)).store;
    assert d.pointers[holder] == 0 && d.rows[0].key == 0 && 0 !in d.objects;
    assert !ShownTo(d, holder);
  }

  lemma RunNone(steps: seq<Step>)
    ensures Run(Start(), steps[..0]) == Start()
  {
  }

  lemma RunPrefix(steps: seq<Step>, n: nat)
    requires n < |steps|
    ensures Run(Start(), steps[..n + 1]) == Next(Run(Start(), steps[..n]), steps[n])
  {
    assert steps[..n + 1][..n] == steps[..n];
  }

  /**
   In every run a successful change retires exactly the file it displaces, which is the holder's active
   one, and goes on to delete that file's object; a replacement shows the new file in the same commit.
   */
  lemma SwapRetiresTheDisplaced(steps: seq<Step>, r: nat)
    requires r in Run(Start(), steps).requests && Run(Start(), steps).requests[r].phase.Holding?
    ensures var s := Run(Start(), steps);
            var q := s.requests[r];
            var z := Next(s, Write(r, CommitDone));
            && (forall id | id in s.store.rows ::
                  && id in z.store.rows
                  && z.store.rows[id] == if q.holder in s.store.pointers && s.store.pointers[q.holder] == id
                                         then s.store.rows[id].(retired := true) else s.store.rows[id])
            && (q.holder in s.store.pointers ==>
                  && Points(s.store, q.holder)
                  && z.requests[r].phase == Deleting(Some(s.store.rows[s.store.pointers[q.holder]].key)))
            && (forall h | h != q.holder ::
                  && (h in z.store.pointers <==> h in s.store.pointers)
                  && (h in s.store.pointers ==> z.store.pointers[h] == s.store.pointers[h]))
            && (q.phase.key.Some? ==>
                  && q.holder in z.store.pointers && z.store.pointers[q.holder] !in s.store.rows
                  && z.store.rows[z.store.pointers[q.holder]] == File(q.phase.key.value, q.holder, false)
                  && ShownTo(z.store, q.holder))
            && (q.phase.key == None ==> q.holder !in z.store.pointers)
  {
    hide Run, KeysApart, OneHolding, OneActive;
    RunKeeps(steps);
    var s := Run(Start(), steps);
    assert RequestOk(s.store, s.requests[r], s.nextKey);
  }

  // ---------------------------------------------------------------- nothing is left behind

  /** Nothing is lost on the way: every reply arrives, every deletion works and no process dies. */
  predicate Smooth(step: Step) {
    match step
    case PutObject(_, put) => put != PutLost
    case Write(_, commit) => commit != CommitLost
    case CleanUp(_, works) => works
    case DeleteOld(_, works) => works
    case Crash(_) => false
    case _ => true
  }

  /** The object a request has stored but not shown yet, or is about to delete. */
  function InHand(q: Request): Option<nat> {
    match q.phase
    case Ready(key) => key
    case Holding(key, _) => key
    case Cleaning(key, _) => key
    case Deleting(key) => key
    case _ => None
  }

  ghost predicate OnShow(d: Store, key: nat) {
    exists id :: id in d.rows && d.rows[id].key == key && !d.rows[id].retired
  }

  ghost predicate Handled(s: State, key: nat) {
    exists r :: r in s.requests && InHand(s.requests[r]) == Some(key)
  }

  /** Every object is an active file's, or in the hands of a request that has not ended. */
  ghost predicate Tidy(s: State) { forall key :: key in s.store.objects ==> OnShow(s.store, key) || Handled(s, key) }

  /** A request that hands over nothing but its own key keeps every other one handled. */
  lemma StillHandled(s: State, t: State, r: nat, key: nat)
    requires Handled(s, key) && r in s.requests && r in t.requests && t.requests == s.requests[r := t.requests[r]]
    requires InHand(s.requests[r]) == Some(key) ==> InHand(t.requests[r]) == Some(key)
    ensures Handled(t, key)
  {
    var v :| v in s.requests && InHand(s.requests[v]) == Some(key);
    assert v in t.requests && InHand(t.requests[v]) == Some(key);
  }

  lemma WriteTidy(s: State, r: nat, commit: Commit)
    requires Inv(s) && Tidy(s) && commit != CommitLost
    ensures Tidy(Next(s, Write(r, commit)))
  {
    hide EachOk, KeysApart, OneHolding, OneActive;
    var t := Next(s, Write(r, commit));
    if r in s.requests && s.requests[r].phase.Holding? {
      var q := s.requests[r];
      forall key | key in t.store.objects ensures OnShow(t.store, key) || Handled(t, key) {
        if commit == CommitFailed {
          if Handled(s, key) { StillHandled(s, t, r, key); }
        } else if q.phase.key == Some(key) {
          assert t.store.rows[s.nextId].key == key;
        } else if OnShow(s.store, key) {
          var id :| id in s.store.rows && s.store.rows[id].key == key && !s.store.rows[id].retired;
          if q.phase.displaced == Some(id) {
            assert InHand(t.requests[r]) == Some(key);
          } else {
            assert t.store.rows[id] == s.store.rows[id];
          }
        } else {
          StillHandled(s, t, r, key);
        }
      }
    }
  }

  /** A request that only moves on keeps its key in hand, or deletes it. */
  lemma MoveTidy(s: State, t: State, r: nat)
    requires Tidy(s) && r in s.requests && r in t.requests && t.requests == s.requests[r := t.requests[r]]
    requires t.store.rows == s.store.rows && t.store.objects <= s.store.objects
    requires InHand(s.requests[r]).Some? && InHand(t.requests[r]) != InHand(s.requests[r]) ==>
               InHand(s.requests[r]).value !in t.store.objects
    ensures Tidy(t)
  {
    forall key | key in t.store.objects ensures OnShow(t.store, key) || Handled(t, key) {
      if Handled(s, key) { StillHandled(s, t, r, key); }
    }
  }

  lemma PutTidy(s: State, r: nat, put: Put)
    requires Tidy(s) && put != PutLost && r in s.requests && s.requests[r].phase.Begun?
    ensures Tidy(Next(s, PutObject(r, put)))
  {
    var t := Next(s, PutObject(r, put));
    forall key | key in t.store.objects ensures OnShow(t.store, key) || Handled(t, key) {
      if key == s.nextKey && put == PutDone {
        assert InHand(t.requests[r]) == Some(key);
      } else if Handled(s, key) {
        StillHandled(s, t, r, key);
      }
    }
  }

  lemma BeginTidy(s: State, r: nat, q: Request)
    requires Tidy(s) && r !in s.requests
    ensures Tidy(s.(requests := s.requests[r := q]))
  {
    var t := s.(requests := s.requests[r := q]);
    forall key | key in t.store.objects ensures OnShow(t.store, key) || Handled(t, key) {
      if Handled(s, key) {
        var v :| v in s.requests && InHand(s.requests[v]) == Some(key);
        assert v in t.requests && InHand(t.requests[v]) == Some(key);
      }
    }
  }

  lemma NextTidy(s: State, step: Step)
    requires Inv(s) && Tidy(s) && Smooth(step)
    ensures Tidy(Next(s, step))
  {
    hide Inv, Tidy, Locked;
    var t := Next(s, step);
    match step
    case Begin(r, holder, replace) => if r !in s.requests { BeginTidy(s, r, t.requests[r]); }
    case PutObject(r, put) => if r in s.requests && s.requests[r].phase.Begun? { PutTidy(s, r, put); }
    case LockHolder(r) => if t != s { MoveTidy(s, t, r); }
    case Write(r, commit) => WriteTidy(s, r, commit);
    case Raise(r) => if t != s { MoveTidy(s, t, r); }
    case CleanUp(r, _) => if t != s { MoveTidy(s, t, r); }
    case DeleteOld(r, _) => if t != s { MoveTidy(s, t, r); }
    case Crash(_) =>
  }

  lemma NothingYet()
    ensures Tidy(Start())
  {
  }

  /**
   Whatever requests meet, raise or fail to store or commit: as long as no reply is lost, no deletion fails and
   no process dies, every stored object is on show or in the hands of a request that has not ended.
   */
  lemma {:induction false} NothingIsLeftBehind(steps: seq<Step>)
    requires forall k :: 0 <= k < |steps| ==> Smooth(steps[k])
    ensures Tidy(Run(Start(), steps))
  {
    hide Inv, Next, Tidy, Smooth;
    if steps == [] {
      NothingYet();
    } else {
      var rest := steps[..|steps| - 1];
      NothingIsLeftBehind(rest);
      RunKeeps(rest);
      NextTidy(Run(Start(), rest), steps[|steps| - 1]);
    }
  }
}
