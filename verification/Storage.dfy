/** The storage interface: either backend behind one entry point, as values and as objects. */
module Storage {
  import opened KeyTypes
  import opened StoreModel
  import opened SqlModel
  import opened Backends
  import opened MemoryBackend
  import opened SqliteBackend

  datatype Backend = Mem(st: Store) | Sql(db: Database)

  ghost function Invoke(su: Suite, b: Backend, c: Call, e: Env): (Backend, Reply) {
    match b
    case Mem(st) => var (st', r) := MemStep(su, st, c, e); (Mem(st'), r)
    case Sql(db) => var (db', r) := SqlStep(su, db, c, e); (Sql(db'), r)
  }

  /** No record carries the uid. */
  predicate Unused(b: Backend, uid: string) {
    match b
    case Mem(st) => uid !in st.keys
    case Sql(db) => forall i :: 0 <= i < |db.keys| ==> db.keys[i].uid != uid
  }

  /** The record is in the store. */
  predicate Holds(b: Backend, r: KeyRecord) {
    match b
    case Mem(st) => r.uid in st.keys && st.keys[r.uid] == r
    case Sql(db) => r in db.keys
  }

  ghost predicate Matching(m: Backend, s: Backend) {
    m.Mem? && s.Sql? && Agree(m.st, s.db)
  }

  lemma InvokeMatches(su: Suite, m: Backend, s: Backend, c: Call, e: Env)
    requires Matching(m, s) && FreshUid(m.st, e)
    ensures Invoke(su, m, c, e).1 == Invoke(su, s, c, e).1
    ensures Matching(Invoke(su, m, c, e).0, Invoke(su, s, c, e).0)
  {
    StepSimulated(su, m.st, s.db, c, e);
  }

  /** An interface value holding one of the two store objects. */
  datatype StoreRef = InMemory(memory: MemoryStore) | InSqlite(sqlite: SqliteStore)

  ghost function Footprint(s: StoreRef): set<object>
    reads if s.InMemory? then {s.memory} else {}
  {
    match s
    case InMemory(m) => m.Repr
    case InSqlite(q) => {q}
  }

  ghost predicate Valid(s: StoreRef)
    reads if s.InMemory? then {s.memory} + s.memory.Repr else {}
  {
    s.InMemory? ==> s.memory.Valid()
  }

  ghost function Value(s: StoreRef): Backend
    reads match s case InMemory(m) => {m as object} case InSqlite(q) => {q as object}
  {
    match s
    case InMemory(m) => Mem(m.View)
    case InSqlite(q) => Sql(q.Tables())
  }

  /** The caller builds the record and hands it over. */
  method RegisterInMemory(m: MemoryStore, value: KeyRecord, e: Env) returns (r: Reply)
    requires m.Valid()
    modifies m.Repr
    ensures m.Valid() && fresh(m.Repr - old(m.Repr))
    ensures (m.View, r) == MemRegister(old(m.View), value, e)
  {
    var rec := new Record(value);
    r := m.Register(rec, e);
  }

  predicate ReadsOnly(c: Call) {
    c.Get? || c.Locate? || c.List? || c.GetAttributes? || c.GetCustomAttributes?
  }

  method ReadMemory(su: Suite, m: MemoryStore, c: Call, e: Env) returns (r: Reply)
    requires m.Valid() && ReadsOnly(c)
    ensures (m.View, r) == MemStep(su, m.View, c, e)
  {
    match c
    case Get(uid) => r := m.Get(uid);
    case Locate(name) => var uids := m.Locate(name); r := Uids(multiset(uids));
    case List => var recs := m.List(); r := Records(multiset(recs));
    case GetAttributes(uid) => r := m.Get(uid);
    case GetCustomAttributes(uid) => r := m.GetCustomAttributes(uid);
  }

  method CallMemory(su: Suite, m: MemoryStore, c: Call, e: Env) returns (r: Reply)
    requires m.Valid()
    modifies m.Repr
    ensures m.Valid() && fresh(m.Repr - old(m.Repr))
    ensures (m.View, r) == MemStep(su, old(m.View), c, e)
  {
    if ReadsOnly(c) {
      r := ReadMemory(su, m, c, e);
      return;
    }
    match c
    case Create(name, algorithm, length, usageMask, owner) => r := m.Create(name, algorithm, length, usageMask, owner, e);
    case Activate(uid) => r := m.Activate(uid);
    case Destroy(uid) => r := m.Destroy(uid);
    case Register(rec) => r := RegisterInMemory(m, rec, e);
    case Revoke(uid, reason) => r := m.Revoke(uid, reason);
    case Rekey(uid) => r := m.Rekey(uid, e);
    case Archive(uid) => r := m.Archive(uid);
    case Recover(uid) => r := m.Recover(uid);
    case DeriveKey(source, data, name, length) => r := m.DeriveKey(su, source, data, name, length, e);
    case SetCustomAttribute(uid, name, value) => r := m.SetCustomAttribute(uid, name, value);
    case DeleteCustomAttribute(uid, name) => r := m.DeleteCustomAttribute(uid, name);
  }

  method ReadSqlite(su: Suite, q: SqliteStore, c: Call, e: Env) returns (r: Reply)
    requires ReadsOnly(c)
    ensures (q.Tables(), r) == SqlStep(su, q.Tables(), c, e)
  {
    match c
    case Get(uid) => r := q.Get(uid);
    case Locate(name) => var uids := q.Locate(name); r := Uids(multiset(uids));
    case List => var recs := q.List(); r := Records(multiset(recs));
    case GetAttributes(uid) => r := q.Get(uid);
    case GetCustomAttributes(uid) => r := q.GetCustomAttributes(uid);
  }

  method CallSqlite(su: Suite, q: SqliteStore, c: Call, e: Env) returns (r: Reply)
    modifies q
    ensures (q.Tables(), r) == SqlStep(su, old(q.Tables()), c, e)
  {
    if ReadsOnly(c) {
      r := ReadSqlite(su, q, c, e);
      return;
    }
    match c
    case Create(name, algorithm, length, usageMask, owner) => r := q.Create(name, algorithm, length, usageMask, owner, e);
    case Activate(uid) => r := q.Activate(uid);
    case Destroy(uid) => r := q.Destroy(uid);
    case Register(rec) => r := q.Register(rec, e);
    case Revoke(uid, reason) => r := q.Revoke(uid, reason);
    case Rekey(uid) => r := q.Rekey(uid, e);
    case Archive(uid) => r := q.Archive(uid);
    case Recover(uid) => r := q.Recover(uid);
    case DeriveKey(source, data, name, length) => r := q.DeriveKey(su, source, data, name, length, e);
    case SetCustomAttribute(uid, name, value) => r := q.SetCustomAttribute(uid, name, value);
    case DeleteCustomAttribute(uid, name) => r := q.DeleteCustomAttribute(uid, name);
  }

  method Dispatch(su: Suite, s: StoreRef, c: Call, e: Env) returns (r: Reply)
    requires Valid(s)
    modifies Footprint(s)
    ensures Valid(s) && fresh(Footprint(s) - old(Footprint(s)))
    ensures (Value(s), r) == Invoke(su, old(Value(s)), c, e)
  {
    match s
    case InMemory(m) => r := CallMemory(su, m, c, e);
    case InSqlite(q) => r := CallSqlite(su, q, c, e);
  }
}
