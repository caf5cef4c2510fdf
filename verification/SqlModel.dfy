/** The SQL backend: two flat tables, the statements the server issues against
    them, and each storage call as the statements it runs. */
module SqlModel {
  import opened KeyTypes
  import opened StoreModel

  datatype AttrRow = AttrRow(uid: string, name: string, value: string)

  datatype Database = Database(keys: seq<KeyRecord>, attributes: seq<AttrRow>)

  const EMPTY_DATABASE := Database([], [])

  /** The WHERE clauses on `keys`. */
  datatype Where =
    | UidNotIn(uid: string, state: KeyState)
    | UidIn(uid: string, state: KeyState)
    | NameNotIn(name: string, state: KeyState)
    | NotIn(state: KeyState)

  predicate Matches(w: Where, r: KeyRecord) {
    match w
    case UidNotIn(uid, state) => r.uid == uid && r.state != state
    case UidIn(uid, state) => r.uid == uid && r.state == state
    case NameNotIn(name, state) => r.name == name && r.state != state
    case NotIn(state) => r.state != state
  }

  /** The SET clauses on `keys`. */
  datatype Assignment =
    | SetState(state: KeyState)
    | SetStateMaterial(state: KeyState, material: bytes)
    | SetStateReason(state: KeyState, reason: int)
    | SetMaterialVersion(material: bytes, version: int)

  function Assign(a: Assignment, r: KeyRecord): (r': KeyRecord)
    ensures r'.uid == r.uid
  {
    match a
    case SetState(state) => r.(state := state)
    case SetStateMaterial(state, material) => r.(state := state, material := material)
    case SetStateReason(state, reason) => r.(state := state, revocationReason := reason)
    case SetMaterialVersion(material, version) => r.(material := material, version := version)
  }

  function Select(rows: seq<KeyRecord>, w: Where): (s: seq<KeyRecord>)
    ensures forall r :: r in s <==> r in rows && Matches(w, r)
  {
    if rows == [] then []
    else
      var last := rows[|rows| - 1];
      assert rows == rows[..|rows| - 1] + [last];
      Select(rows[..|rows| - 1], w) + if Matches(w, last) then [last] else []
  }

  function Update(rows: seq<KeyRecord>, a: Assignment, w: Where): (s: seq<KeyRecord>)
    ensures |s| == |rows|
  {
    seq(|rows|, i requires 0 <= i < |rows| => if Matches(w, rows[i]) then Assign(a, rows[i]) else rows[i])
  }

  function RowsAffected(rows: seq<KeyRecord>, w: Where): nat {
    |Select(rows, w)|
  }

  /** Refused when the primary key is taken. */
  function Insert(rows: seq<KeyRecord>, r: KeyRecord): Option<seq<KeyRecord>> {
    if exists i :: 0 <= i < |rows| && rows[i].uid == r.uid then None else Some(rows + [r])
  }

  function SelectAttrs(rows: seq<AttrRow>, uid: string): (s: seq<AttrRow>)
    ensures forall r :: r in s <==> r in rows && r.uid == uid
  {
    if rows == [] then []
    else
      var last := rows[|rows| - 1];
      assert rows == rows[..|rows| - 1] + [last];
      SelectAttrs(rows[..|rows| - 1], uid) + if last.uid == uid then [last] else []
  }

  /** Insert, or on a conflict of the pair key overwrite the value. */
  function Upsert(rows: seq<AttrRow>, row: AttrRow): seq<AttrRow> {
    if exists i :: 0 <= i < |rows| && rows[i].uid == row.uid && rows[i].name == row.name then
      seq(|rows|, i requires 0 <= i < |rows| => if rows[i].uid == row.uid && rows[i].name == row.name then row else rows[i])
    else
      rows + [row]
  }

  function DeleteAttr(rows: seq<AttrRow>, uid: string, name: string): (s: seq<AttrRow>)
    ensures forall r :: r in s <==> r in rows && !(r.uid == uid && r.name == name)
  {
    if rows == [] then []
    else
      var last := rows[|rows| - 1];
      assert rows == rows[..|rows| - 1] + [last];
      DeleteAttr(rows[..|rows| - 1], uid, name) + if last.uid == uid && last.name == name then [] else [last]
  }

  /** Later rows overwrite earlier ones. */
  function AttrMap(rows: seq<AttrRow>): map<string, string> {
    if rows == [] then map[]
    else AttrMap(rows[..|rows| - 1])[rows[|rows| - 1].name := rows[|rows| - 1].value]
  }

  function SqlGet(db: Database, uid: string): Reply {
    var rows := Select(db.keys, UidNotIn(uid, DESTROYED));
    if rows == [] then Failed else Found(rows[0])
  }

  function SqlInsert(db: Database, rec: KeyRecord): (Database, Reply) {
    match Insert(db.keys, rec)
    case None => (db, Failed)
    case Some(rows) => (db.(keys := rows), Found(rec))
  }

  function SqlCreate(db: Database, name: string, algorithm: int, length: int, usageMask: int, owner: string, e: Env): (Database, Reply) {
    if !ValidLength(length) || e.entropy.None? then (db, Failed)
    else SqlInsert(db, NewRecord(name, algorithm, length, usageMask, owner, RandomBytes(e.entropy.value, length / 8), e))
  }

  /** A guarded UPDATE whose row count decides between success and "not found". */
  function SqlUpdate(db: Database, a: Assignment, w: Where): (Database, Reply) {
    (db.(keys := Update(db.keys, a, w)), if RowsAffected(db.keys, w) == 0 then Failed else Done)
  }

  function SqlRegister(db: Database, rec: KeyRecord, e: Env): (Database, Reply) {
    if !Registrable(rec) then (db, Failed) else SqlInsert(db, Registered(rec, e))
  }

  /** The read half of Rekey: the record with its new material and version, not yet written. */
  function RekeyRead(db: Database, uid: string, e: Env): Option<KeyRecord> {
    var found := SqlGet(db, uid);
    if found.Failed? || !ValidLength(found.rec.length) || e.entropy.None? then None
    else Some(found.rec.(material := RandomBytes(e.entropy.value, found.rec.length / 8), version := found.rec.version + 1))
  }

  /** The write half of Rekey; its row count is ignored. */
  function RekeyWrite(db: Database, uid: string, rec: KeyRecord): Database {
    db.(keys := Update(db.keys, SetMaterialVersion(rec.material, rec.version), UidNotIn(uid, DESTROYED)))
  }

  function SqlRekey(db: Database, uid: string, e: Env): (Database, Reply) {
    match RekeyRead(db, uid, e)
    case None => (db, Failed)
    case Some(rec) => (RekeyWrite(db, uid, rec), Found(rec))
  }

  function SqlDerive(su: Suite, db: Database, source: string, data: bytes, name: string, length: int, e: Env): (Database, Reply) {
    var src := SqlGet(db, source);
    if src.Failed? then (db, Failed)
    else
      match Derived(su, src.rec, data, name, length, e)
      case None => (db, Failed)
      case Some(rec) => SqlInsert(db, rec)
  }

  function UidsOf(rows: seq<KeyRecord>): (s: seq<string>)
    ensures |s| == |rows|
  {
    seq(|rows|, i requires 0 <= i < |rows| => rows[i].uid)
  }

  function SqlStep(su: Suite, db: Database, c: Call, e: Env): (Database, Reply) {
    match c
    case Create(name, algorithm, length, usageMask, owner) => SqlCreate(db, name, algorithm, length, usageMask, owner, e)
    case Get(uid) => (db, SqlGet(db, uid))
    case Locate(name) => (db, Uids(multiset(UidsOf(Select(db.keys, NameNotIn(name, DESTROYED))))))
    case List => (db, Records(multiset(Select(db.keys, NotIn(DESTROYED)))))
    case Activate(uid) => SqlUpdate(db, SetState(ACTIVE), UidNotIn(uid, DESTROYED))
    case Destroy(uid) => SqlUpdate(db, SetStateMaterial(DESTROYED, []), UidNotIn(uid, DESTROYED))
    case Register(rec) => SqlRegister(db, rec, e)
    case Revoke(uid, reason) => SqlUpdate(db, SetStateReason(COMPROMISED, reason), UidNotIn(uid, DESTROYED))
    case GetAttributes(uid) => (db, SqlGet(db, uid))
    case Rekey(uid) => SqlRekey(db, uid, e)
    case Archive(uid) => SqlUpdate(db, SetState(ARCHIVED), UidNotIn(uid, DESTROYED))
    case Recover(uid) => SqlUpdate(db, SetState(PRE_ACTIVE), UidIn(uid, ARCHIVED))
    case DeriveKey(source, data, name, length) => SqlDerive(su, db, source, data, name, length, e)
    case GetCustomAttributes(uid) =>
      (db, if SqlGet(db, uid).Failed? then Failed else Attributes(AttrMap(SelectAttrs(db.attributes, uid))))
    case SetCustomAttribute(uid, name, value) =>
      if SqlGet(db, uid).Failed? then (db, Failed)
      else (db.(attributes := Upsert(db.attributes, AttrRow(uid, name, value))), Done)
    case DeleteCustomAttribute(uid, name) =>
      if SqlGet(db, uid).Failed? then (db, Failed)
      else (db.(attributes := DeleteAttr(db.attributes, uid, name)), Done)
  }
}
