/** The object store of a shard node. Every operation is one database transaction:
    it succeeds under an exact condition, or leaves the store as it was. Whatever
    transactions are interleaved, no object is ever consumed twice. */
module ObjectStore {
  import opened Bytes
  import opened Sets

  type Id = Bytes

  datatype ObjectStatus = Active | Inactive | Locked

  datatype Object = Object(id: Id, value: Bytes)

  /** The database: object values and statuses, and for a transaction what was seen and
      whether it is committed. */
  datatype Db = Db(values: map<Id, Bytes>, statuses: map<Id, ObjectStatus>, seen: map<Id, Bytes>, committed: map<Id, bool>)

  datatype Op =
    | Lock(keys: seq<Id>)
    | Unlock(keys: seq<Id>)
    | Deactivate(keys: seq<Id>)
    | Create(objs: seq<Object>)
    | Commit(tx: Id, keys: seq<Id>, objs: seq<Object>)
    | Register(tx: Id, value: Bytes)

  // ---------------------------------------------------------------------------
  // When a batch goes through, and what it then does.

  function Ids(objs: seq<Object>): seq<Id> {
    seq(|objs|, i requires 0 <= i < |objs| => objs[i].id)
  }

  predicate CanLock(db: Db, keys: seq<Id>) {
    Distinct(keys) && forall k | k in keys :: k in db.statuses && db.statuses[k] == Active
  }

  predicate CanUnlock(db: Db, keys: seq<Id>) {
    forall k | k in keys :: k in db.statuses && db.statuses[k] != Inactive
  }

  predicate CanDeactivate(db: Db, keys: seq<Id>) {
    Distinct(keys) && forall k | k in keys :: k in db.statuses && db.statuses[k] != Inactive
  }

  predicate CanCreate(db: Db, objs: seq<Object>) {
    Distinct(Ids(objs)) && forall o | o in objs :: o.id !in db.values && o.id !in db.statuses
  }

  function Mark(db: Db, keys: seq<Id>, status: ObjectStatus): Db {
    db.(statuses := map k | k in db.statuses.Keys + (set k | k in keys) :: if k in keys then status else db.statuses[k])
  }

  function Added(db: Db, objs: seq<Object>): Db {
    if objs == [] then db
    else
      var db1, o := Added(db, objs[..|objs| - 1]), objs[|objs| - 1];
      db1.(values := db1.values[o.id := o.value], statuses := db1.statuses[o.id := Active])
  }

  predicate Can(db: Db, op: Op) {
    match op
    case Lock(keys) => CanLock(db, keys)
    case Unlock(keys) => CanUnlock(db, keys)
    case Deactivate(keys) => CanDeactivate(db, keys)
    case Create(objs) => CanCreate(db, objs)
    case Commit(tx, keys, objs) => CanDeactivate(db, keys) && CanCreate(db, objs) && tx in db.committed && !db.committed[tx]
    case Register(tx, _) => tx !in db.seen && tx !in db.committed
  }

  function Done(db: Db, op: Op): Db {
    match op
    case Lock(keys) => Mark(db, keys, Locked)
    case Unlock(keys) => Mark(db, keys, Active)
    case Deactivate(keys) => Mark(db, keys, Inactive)
    case Create(objs) => Added(db, objs)
    case Commit(tx, keys, objs) => Added(Mark(db, keys, Inactive), objs).(committed := db.committed[tx := true])
    case Register(tx, value) => db.(seen := db.seen[tx := value], committed := db.committed[tx := false])
  }

  function Perform(db: Db, op: Op): Db {
    if Can(db, op) then Done(db, op) else db
  }

  // ---------------------------------------------------------------------------
  // Runs: any operations of any transactions, in any order.

  function After(db: Db, ops: seq<Op>): Db {
    if ops == [] then db else Perform(After(db, ops[..|ops| - 1]), ops[|ops| - 1])
  }

  predicate IsInactive(db: Db, id: Id) {
    id in db.statuses && db.statuses[id] == Inactive
  }

  predicate Consumes(db: Db, op: Op, id: Id) {
    Can(db, op) && ((op.Deactivate? || op.Commit?) && id in op.keys)
  }

  /** How often a run deactivates `id` with success. */
  function Consumptions(db: Db, ops: seq<Op>, id: Id): nat {
    if ops == [] then 0
    else
      Consumptions(db, ops[..|ops| - 1], id) +
      if Consumes(After(db, ops[..|ops| - 1]), ops[|ops| - 1], id) then 1 else 0
  }

  lemma {:induction false} AddedStatus(db: Db, objs: seq<Object>, id: Id)
    ensures id in Added(db, objs).statuses <==> id in db.statuses || id in Ids(objs)
    ensures id in Added(db, objs).statuses ==> Added(db, objs).statuses[id] == if id in Ids(objs) then Active else db.statuses[id]
    ensures Added(db, objs).committed == db.committed
  {
    if objs != [] {
      var init := objs[..|objs| - 1];
      AddedStatus(db, init, id);
      assert Ids(objs) == Ids(init) + [objs[|objs| - 1].id];
    }
  }

  lemma OneOp(db: Db, op: Op, id: Id)
    ensures IsInactive(db, id) ==> IsInactive(Perform(db, op), id) && !Consumes(db, op, id)
    ensures !IsInactive(db, id) ==> (IsInactive(Perform(db, op), id) <==> Consumes(db, op, id))
  {
    if Can(db, op) && (op.Create? || op.Commit?) {
      AddedStatus(if op.Create? then db else Mark(db, op.keys, Inactive), op.objs, id);
      if id in Ids(op.objs) {
        var i :| 0 <= i < |op.objs| && Ids(op.objs)[i] == id;
        assert op.objs[i] in op.objs;
      }
    }
  }

  /** Inactive is for good, and is reached by exactly one successful deactivation. */
  lemma {:induction false} ConsumedOnce(db: Db, ops: seq<Op>, id: Id)
    ensures Consumptions(db, ops, id) ==
            (if IsInactive(After(db, ops), id) then 1 else 0) - (if IsInactive(db, id) then 1 else 0)
  {
    if ops != [] {
      ConsumedOnce(db, ops[..|ops| - 1], id);
      OneOp(After(db, ops[..|ops| - 1]), ops[|ops| - 1], id);
    }
  }

  lemma {:induction false} InactiveForGood(db: Db, ops: seq<Op>, more: seq<Op>, id: Id)
    requires IsInactive(After(db, ops), id)
    ensures IsInactive(After(db, ops + more), id) && Consumptions(db, ops + more, id) == Consumptions(db, ops, id) <= 1
    decreases |more|
  {
    ConsumedOnce(db, ops, id);
    if more == [] {
      assert ops + more == ops;
    } else {
      var init := more[..|more| - 1];
      assert (ops + more)[..|ops + more| - 1] == ops + init;
      InactiveForGood(db, ops, init, id);
      OneOp(After(db, ops + init), more[|more| - 1], id);
    }
  }

  // ---------------------------------------------------------------------------
  // The loops over a database transaction, which reads its own writes.

  lemma MarkedMore(db: Db, keys: seq<Id>, i: nat, status: ObjectStatus)
    requires i < |keys|
    ensures Mark(db, keys[..i + 1], status) == Mark(db, keys[..i], status).(statuses := Mark(db, keys[..i], status).statuses[keys[i] := status])
  {
    assert keys[..i + 1] == keys[..i] + [keys[i]];
  }

  /** Sets every key to `status`; `allowed` says which statuses may be left, and a
      key that was already set counts with its new status. */
  method MarkAll(db: Db, keys: seq<Id>, allowed: set<ObjectStatus>, status: ObjectStatus) returns (txn: Db, ok: bool)
    ensures ok <==> (forall k | k in keys :: k in db.statuses && db.statuses[k] in allowed) && (status in allowed || Distinct(keys))
    ensures ok ==> txn == Mark(db, keys, status)
  {
    txn, ok := db, true;
    var i := 0;
    assert Mark(db, keys[..0], status) == db;
    while i < |keys|
      invariant i <= |keys| && txn == Mark(db, keys[..i], status)
      invariant forall k | k in keys[..i] :: k in db.statuses && db.statuses[k] in allowed
      invariant status in allowed || Distinct(keys[..i])
    {
      var key := keys[i];
      assert key in keys;
      if key !in txn.statuses || txn.statuses[key] !in allowed {
        if key in keys[..i] {
          var j :| 0 <= j < i && keys[j] == key;
          assert keys[j] == keys[i] && !Distinct(keys);
        }
        return db, false;
      }
      assert keys[..i + 1] == keys[..i] + [key];
      MarkedMore(db, keys, i, status);
      txn := txn.(statuses := txn.statuses[key := status]);
      i := i + 1;
    }
    assert keys[..|keys|] == keys;
  }

  lemma {:induction false} AddedValues(db: Db, objs: seq<Object>, id: Id)
    ensures id in Added(db, objs).values <==> id in db.values || id in Ids(objs)
  {
    if objs != [] {
      AddedValues(db, objs[..|objs| - 1], id);
      assert Ids(objs) == Ids(objs[..|objs| - 1]) + [objs[|objs| - 1].id];
    }
  }

  lemma CannotCreate(db: Db, objs: seq<Object>, i: nat)
    requires i < |objs|
    requires objs[i].id in Ids(objs[..i]) || objs[i].id in db.values || objs[i].id in db.statuses
    ensures !CanCreate(db, objs)
  {
    if objs[i].id in Ids(objs[..i]) {
      var j :| 0 <= j < i && Ids(objs[..i])[j] == objs[i].id;
      assert Ids(objs)[j] == Ids(objs)[i];
    } else {
      assert objs[i] in objs;
    }
  }

  lemma CanCreateMore(db: Db, objs: seq<Object>, i: nat)
    requires i < |objs| && CanCreate(db, objs[..i])
    requires objs[i].id !in Ids(objs[..i]) && objs[i].id !in db.values && objs[i].id !in db.statuses
    ensures CanCreate(db, objs[..i + 1])
  {
    assert Ids(objs[..i + 1]) == Ids(objs[..i]) + [objs[i].id];
    assert objs[..i + 1] == objs[..i] + [objs[i]];
  }

  method CreateAll(db: Db, objs: seq<Object>) returns (txn: Db, ok: bool)
    ensures ok <==> CanCreate(db, objs)
    ensures ok ==> txn == Added(db, objs)
  {
    txn, ok := db, true;
    var i := 0;
    while i < |objs|
      invariant i <= |objs| && txn == Added(db, objs[..i]) && CanCreate(db, objs[..i])
    {
      var o := objs[i];
      AddedValues(db, objs[..i], o.id);
      AddedStatus(db, objs[..i], o.id);
      if o.id in txn.values || o.id in txn.statuses {
        CannotCreate(db, objs, i);
        return db, false;
      }
      CanCreateMore(db, objs, i);
      assert objs[..i + 1][..i] == objs[..i];
      txn := txn.(values := txn.values[o.id := o.value], statuses := txn.statuses[o.id := Active]);
      i := i + 1;
    }
    assert objs[..|objs|] == objs;
  }

  /** Marking keys neither hinders nor helps the creation of objects. */
  lemma CreateAfterMark(db: Db, keys: seq<Id>, objs: seq<Object>, status: ObjectStatus)
    requires forall k | k in keys :: k in db.statuses
    ensures CanCreate(Mark(db, keys, status), objs) <==> CanCreate(db, objs)
  {
  }

  class Store {
    var db: Db

    constructor ()
      ensures db == Db(map[], map[], map[], map[])
    {
      db := Db(map[], map[], map[], map[]);
    }

    method LockObjects(keys: seq<Id>) returns (ok: bool)
      modifies this
      ensures ok == Can(old(db), Op.Lock(keys)) && db == Perform(old(db), Op.Lock(keys))
    {
      var txn;
      txn, ok := MarkAll(db, keys, {Active}, Locked);
      if ok { db := txn; }
    }

    method UnlockObjects(keys: seq<Id>) returns (ok: bool)
      modifies this
      ensures ok == Can(old(db), Op.Unlock(keys)) && db == Perform(old(db), Op.Unlock(keys))
    {
      var txn;
      txn, ok := MarkAll(db, keys, {Active, Locked}, Active);
      if ok { db := txn; }
    }

    method DeactivateObjects(keys: seq<Id>) returns (ok: bool)
      modifies this
      ensures ok == Can(old(db), Op.Deactivate(keys)) && db == Perform(old(db), Op.Deactivate(keys))
    {
      var txn;
      txn, ok := MarkAll(db, keys, {Active, Locked}, Inactive);
      if ok { db := txn; }
    }

    method CreateObjects(objs: seq<Object>) returns (ok: bool)
      modifies this
      ensures ok == Can(old(db), Op.Create(objs)) && db == Perform(old(db), Op.Create(objs))
    {
      var txn;
      txn, ok := CreateAll(db, objs);
      if ok { db := txn; }
    }

    method CommitTransaction(tx: Id, keys: seq<Id>, objs: seq<Object>) returns (ok: bool)
      modifies this
      ensures ok == Can(old(db), Op.Commit(tx, keys, objs)) && db == Perform(old(db), Op.Commit(tx, keys, objs))
    {
      var txn;
      txn, ok := MarkAll(db, keys, {Active, Locked}, Inactive);
      if !ok { return; }
      CreateAfterMark(db, keys, objs, Inactive);
      AddedStatus(txn, objs, tx);
      txn, ok := CreateAll(txn, objs);
      if !ok { return; }
      if tx !in txn.committed || txn.committed[tx] { return false; }
      db := txn.(committed := txn.committed[tx := true]);
    }

    method AddTransaction(tx: Id, value: Bytes) returns (ok: bool)
      modifies this
      ensures ok == Can(old(db), Op.Register(tx, value)) && db == Perform(old(db), Op.Register(tx, value))
    {
      if tx in db.seen { return false; }
      var txn := db.(seen := db.seen[tx := value]);
      if tx in txn.committed { return false; }
      db := txn.(committed := txn.committed[tx := false]);
      ok := true;
    }
  }
}
