/** The storage interface as calls and replies, and the value-level meaning of the
    in-memory backend. `MemoryStore` refines these functions on the heap. */
module StoreModel {
  import opened KeyTypes

  datatype Call =
    | Create(name: string, algorithm: int, length: int, usageMask: int, owner: string)
    | Get(uid: string)
    | Locate(name: string)
    | List
    | Activate(uid: string)
    | Destroy(uid: string)
    | Register(rec: KeyRecord)
    | Revoke(uid: string, reason: int)
    | GetAttributes(uid: string)
    | Rekey(uid: string)
    | Archive(uid: string)
    | Recover(uid: string)
    | DeriveKey(source: string, data: bytes, name: string, length: int)
    | GetCustomAttributes(uid: string)
    | SetCustomAttribute(uid: string, name: string, value: string)
    | DeleteCustomAttribute(uid: string, name: string)

  datatype Reply =
    | Failed
    | Done
    | Found(rec: KeyRecord)
    | Uids(uids: multiset<string>)
    | Records(recs: multiset<KeyRecord>)
    | Attributes(attrs: map<string, string>)

  /** What one call draws from outside: a generated uid, the clock, random bytes. */
  datatype Env = Env(uid: string, now: int, entropy: Entropy)

  /** Keys by uid, and custom attributes by uid and then by name. */
  datatype Store = Store(keys: map<string, KeyRecord>, attrs: map<string, map<string, string>>)

  const EMPTY_STORE := Store(map[], map[])

  predicate Live(st: Store, uid: string) {
    uid in st.keys && st.keys[uid].state != DESTROYED
  }

  /** Everything about a key that no operation changes. */
  predicate SameIdentity(r: KeyRecord, r': KeyRecord) {
    && r'.uid == r.uid && r'.name == r.name && r'.objectType == r.objectType && r'.algorithm == r.algorithm
    && r'.length == r.length && r'.usageMask == r.usageMask && r'.owner == r.owner && r'.createdAt == r.createdAt
  }

  /** Every record is stored under its own uid. */
  ghost predicate Keyed(st: Store) {
    forall u :: u in st.keys ==> st.keys[u].uid == u
  }

  function Put(st: Store, rec: KeyRecord): Store {
    st.(keys := st.keys[rec.uid := rec])
  }

  predicate ValidLength(length: int) {
    0 < length <= MAX_KEY_LENGTH_BITS
  }

  function NewRecord(name: string, algorithm: int, length: int, usageMask: int, owner: string,
                     material: bytes, e: Env): KeyRecord {
    KeyRecord(e.uid, name, SYMMETRIC_KEY, algorithm, length, material, usageMask, PRE_ACTIVE, 0, owner, e.now, 1)
  }

  function MemCreate(st: Store, name: string, algorithm: int, length: int, usageMask: int, owner: string, e: Env): (Store, Reply) {
    if !ValidLength(length) || e.entropy.None? then
      (st, Failed)
    else
      var rec := NewRecord(name, algorithm, length, usageMask, owner, RandomBytes(e.entropy.value, length / 8), e);
      (Put(st, rec), Found(rec))
  }

  function MemGet(st: Store, uid: string): Reply {
    if Live(st, uid) then Found(st.keys[uid]) else Failed
  }

  ghost function LiveNamed(st: Store, name: string): set<string> {
    set u | u in st.keys && st.keys[u].name == name && st.keys[u].state != DESTROYED
  }

  ghost function LiveRecords(st: Store): set<KeyRecord> {
    set u | u in st.keys && st.keys[u].state != DESTROYED :: st.keys[u]
  }

  /** The record a successful state change leaves behind. */
  function MemSetState(st: Store, uid: string, state: KeyState): (Store, Reply) {
    if !Live(st, uid) then (st, Failed)
    else (st.(keys := st.keys[uid := st.keys[uid].(state := state)]), Done)
  }

  function MemDestroy(st: Store, uid: string): (Store, Reply) {
    if !Live(st, uid) then (st, Failed)
    else (st.(keys := st.keys[uid := st.keys[uid].(material := [], state := DESTROYED)]), Done)
  }

  predicate Registrable(rec: KeyRecord) {
    !(rec.objectType != CERTIFICATE && rec.length < 0)
  }

  function Registered(rec: KeyRecord, e: Env): KeyRecord {
    rec.(uid := e.uid, createdAt := e.now, state := PRE_ACTIVE,
         version := if rec.version == 0 then 1 else rec.version)
  }

  function MemRegister(st: Store, rec: KeyRecord, e: Env): (Store, Reply) {
    if !Registrable(rec) then (st, Failed)
    else (Put(st, Registered(rec, e)), Found(Registered(rec, e)))
  }

  function MemRevoke(st: Store, uid: string, reason: int): (Store, Reply) {
    if !Live(st, uid) then (st, Failed)
    else (st.(keys := st.keys[uid := st.keys[uid].(state := COMPROMISED, revocationReason := reason)]), Done)
  }

  function MemRekey(st: Store, uid: string, e: Env): (Store, Reply) {
    if !Live(st, uid) then (st, Failed)
    else
      var rec := st.keys[uid];
      if !ValidLength(rec.length) || e.entropy.None? then (st, Failed)
      else
        var rec' := rec.(material := RandomBytes(e.entropy.value, rec.length / 8), version := rec.version + 1);
        (st.(keys := st.keys[uid := rec']), Found(rec'))
  }

  function MemRecover(st: Store, uid: string): (Store, Reply) {
    if uid !in st.keys || st.keys[uid].state != ARCHIVED then (st, Failed)
    else (st.(keys := st.keys[uid := st.keys[uid].(state := PRE_ACTIVE)]), Done)
  }

  /** Bytes asked of HKDF for a requested bit length. */
  function DerivedBytes(length: int): (n: nat)
    ensures n > 0
    ensures length >= 8 ==> n == length / 8
    ensures length < 8 ==> n == 32
  {
    var n := BytesIn(length);
    if n <= 0 then 32 else n
  }

  /** The derived record, or nothing when the length limit or HKDF refuses. */
  function Derived(su: Suite, src: KeyRecord, data: bytes, name: string, length: int, e: Env): Option<KeyRecord> {
    var n := DerivedBytes(length);
    if n > MAX_DERIVED_KEY_BYTES || n > HKDF_LIMIT then None
    else Some(NewRecord(name, src.algorithm, length, src.usageMask, src.owner, su.hkdf(src.material, data, n), e))
  }

  function MemDerive(su: Suite, st: Store, source: string, data: bytes, name: string, length: int, e: Env): (Store, Reply) {
    if !Live(st, source) then (st, Failed)
    else
      match Derived(su, st.keys[source], data, name, length, e)
      case None => (st, Failed)
      case Some(rec) => (Put(st, rec), Found(rec))
  }

  function AttrsOf(st: Store, uid: string): map<string, string> {
    if uid in st.attrs then st.attrs[uid] else map[]
  }

  function MemSetAttr(st: Store, uid: string, name: string, value: string): Store {
    st.(attrs := st.attrs[uid := AttrsOf(st, uid)[name := value]])
  }

  /** Deleting from an absent inner map does nothing. */
  function MemDeleteAttr(st: Store, uid: string, name: string): Store {
    if uid in st.attrs then st.(attrs := st.attrs[uid := st.attrs[uid] - {name}]) else st
  }

  ghost function MemStep(su: Suite, st: Store, c: Call, e: Env): (Store, Reply) {
    match c
    case Create(name, algorithm, length, usageMask, owner) => MemCreate(st, name, algorithm, length, usageMask, owner, e)
    case Get(uid) => (st, MemGet(st, uid))
    case Locate(name) => (st, Uids(multiset(LiveNamed(st, name))))
    case List => (st, Records(multiset(LiveRecords(st))))
    case Activate(uid) => MemSetState(st, uid, ACTIVE)
    case Destroy(uid) => MemDestroy(st, uid)
    case Register(rec) => MemRegister(st, rec, e)
    case Revoke(uid, reason) => MemRevoke(st, uid, reason)
    case GetAttributes(uid) => (st, MemGet(st, uid))
    case Rekey(uid) => MemRekey(st, uid, e)
    case Archive(uid) => MemSetState(st, uid, ARCHIVED)
    case Recover(uid) => MemRecover(st, uid)
    case DeriveKey(source, data, name, length) => MemDerive(su, st, source, data, name, length, e)
    case GetCustomAttributes(uid) => (st, if Live(st, uid) then Attributes(AttrsOf(st, uid)) else Failed)
    case SetCustomAttribute(uid, name, value) => if Live(st, uid) then (MemSetAttr(st, uid, name, value), Done) else (st, Failed)
    case DeleteCustomAttribute(uid, name) => if Live(st, uid) then (MemDeleteAttr(st, uid, name), Done) else (st, Failed)
  }
}
