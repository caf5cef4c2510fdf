/** What one atomic action of an interleaved request does to one record, on either
    backend: its state, its version, and the writes still to come. */
module ConcurrentRecords {
  import opened KeyTypes
  import opened StoreModel
  import opened SqlModel
  import opened Backends
  import opened Storage
  import opened Kmip
  import opened Concurrency

  /** The storage call an action begins, if it begins one. */
  ghost function Performs(su: Suite, s: System, a: Action): Option<Call> {
    match a
    case Arrive(tid, item, clientCN, o, _) =>
      if tid in s.threads || Start(item, clientCN, o).Answer? then None else Some(Start(item, clientCN, o).call)
    case Rest(tid, call, _) => if tid in s.threads || !RestCall(call) then None else Some(call)
    case Advance(tid, _) =>
      if tid !in s.threads || !s.threads[tid].Between? then None
      else
        var t := s.threads[tid];
        if Start(t.item, t.clientCN, t.o).Answer? || Continue(su, t.item, t.clientCN, t.o, t.r1).Answer? then None
        else Some(Continue(su, t.item, t.clientCN, t.o, t.r1).call)
  }

  /** The write a request has still to carry out, once it is past its read. */
  function Waiting(s: System, tid: nat): Option<Write> {
    if tid in s.threads && !s.threads[tid].Between? then Some(s.threads[tid].w) else None
  }

  /** The action is the write half of a SQL rekey of `uid`, which reports success. */
  predicate Completes(s: System, a: Action, uid: string) {
    && a.Advance? && Waiting(s, a.tid).Some?
    && var w := Waiting(s, a.tid).value; w.WriteRekey? && w.uid == uid
  }

  /** A rekey of `uid` reports success: a completed SQL write, or a locked rekey in memory. */
  ghost predicate Rekeyed(su: Suite, s: System, a: Action, uid: string) {
    || Completes(s, a, uid)
    || (Performs(su, s, a) == Some(Rekey(uid)) && Succeeds(Begin(su, s.b, Rekey(uid), a.e)))
  }

  predicate Succeeds(p: Progress) {
    p.Complete? && p.r.Found?
  }

  /** `r'` is what became of `r` in a store that keeps its records. */
  ghost predicate Became(b: Backend, r: KeyRecord, r': KeyRecord) {
    Holds(b, r') && r'.uid == r.uid && forall q :: Holds(b, q) && q.uid == r.uid ==> q == r'
  }

  lemma UpdatedRow(db: Database, a: Assignment, w: Where, r: KeyRecord)
    requires UniqueKeys(db.keys) && r in db.keys
    ensures Became(Sql(db.(keys := Update(db.keys, a, w))), r, if Matches(w, r) then Assign(a, r) else r)
  {
    var rows, rows' := db.keys, Update(db.keys, a, w);
    var k :| 0 <= k < |rows| && rows[k] == r;
    assert rows'[k] == if Matches(w, r) then Assign(a, r) else r;
    forall q | q in rows' && q.uid == r.uid
      ensures q == rows'[k]
    {
      var i :| 0 <= i < |rows'| && rows'[i] == q;
      assert rows[i].uid == rows'[i].uid;
    }
  }

  lemma InsertedRow(db: Database, rec: KeyRecord, r: KeyRecord)
    requires UniqueKeys(db.keys) && r in db.keys && rec.uid != r.uid
    ensures Became(Sql(SqlInsert(db, rec).0), r, r)
  {
    KeptRow(db, r);
  }

  lemma KeptRow(db: Database, r: KeyRecord)
    requires UniqueKeys(db.keys) && r in db.keys
    ensures Became(Sql(db), r, r)
  {
    var k :| 0 <= k < |db.keys| && db.keys[k] == r;
    forall q | q in db.keys && q.uid == r.uid
      ensures q == r
    {
      var i :| 0 <= i < |db.keys| && db.keys[i] == q;
    }
  }

  lemma AddedRow(su: Suite, db: Database, c: Call, e: Env, r: KeyRecord)
    requires UniqueKeys(db.keys) && r in db.keys && e.uid != r.uid && (c.Create? || c.Register?)
    ensures Became(Sql(SqlStep(su, db, c, e).0), r, r)
  {
    KeptRow(db, r);
    if c.Create? && ValidLength(c.length) && e.entropy.Some? {
      InsertedRow(db, NewRecord(c.name, c.algorithm, c.length, c.usageMask, c.owner, RandomBytes(e.entropy.value, c.length / 8), e), r);
    } else if c.Register? && Registrable(c.rec) {
      InsertedRow(db, Registered(c.rec, e), r);
    }
  }

  /** The state a storage call leaves a live record in. */
  function StateAfter(c: Call, r: KeyRecord): KeyState {
    if r.state == DESTROYED then DESTROYED
    else if c == Activate(r.uid) then ACTIVE
    else if c.Revoke? && c.uid == r.uid then COMPROMISED
    else if c == Destroy(r.uid) then DESTROYED
    else r.state
  }

  /** The record a storage call leaves, given how far the call got. */
  function Applied(c: Call, p: Progress, r: KeyRecord): KeyRecord {
    if r.state == DESTROYED then r
    else if c == Activate(r.uid) then r.(state := ACTIVE)
    else if c.Revoke? && c.uid == r.uid then r.(state := COMPROMISED, revocationReason := c.reason)
    else if c == Destroy(r.uid) then r.(state := DESTROYED, material := [])
    else if c == Rekey(r.uid) && Succeeds(p) then p.r.rec
    else r
  }

  /** The record the write half of a call leaves. */
  function Written(w: Write, r: KeyRecord): KeyRecord {
    if w.WriteRekey? && w.uid == r.uid && r.state != DESTROYED then r.(material := w.rec.material, version := w.rec.version) else r
  }

  /** A locked rekey changes material and version alone. */
  lemma LockedRekey(su: Suite, b: Backend, e: Env, r: KeyRecord)
    requires SoundStore(b) && Holds(b, r) && Succeeds(Begin(su, b, Rekey(r.uid), e))
    ensures b.Mem? && r.state != DESTROYED && ValidLength(r.length)
    ensures var rec := Begin(su, b, Rekey(r.uid), e).r.rec;
      rec == r.(material := rec.material, version := r.version + 1) && |rec.material| == r.length / 8
  {
  }

  /** What a call on the in-memory value does to one record. */
  lemma MemStepRecord(su: Suite, st: Store, c: Call, e: Env, r: KeyRecord)
    requires Allowed(c) && e.uid != r.uid && r.uid in st.keys && st.keys[r.uid] == r
    ensures var (st', reply) := MemStep(su, st, c, e);
      r.uid in st'.keys && st'.keys[r.uid] == Applied(c, Complete(Mem(st'), reply), r)
  {
  }

  lemma MemBeginState(su: Suite, st: Store, c: Call, e: Env, p: Progress, r: KeyRecord) returns (r': KeyRecord)
    requires Keyed(st) && Allowed(c) && e.uid !in st.keys && Holds(Mem(st), r)
    requires p == Begin(su, Mem(st), c, e) && p.Complete?
    ensures Became(p.b, r, r') && r' == Applied(c, p, r)
  {
    UninterruptedCall(su, Mem(st), c, e);
    MemStepRecord(su, st, c, e, r);
    r' := MemStep(su, st, c, e).0.keys[r.uid];
    AppliedKeepsUid(su, st, c, e, r);
  }

  lemma AppliedKeepsUid(su: Suite, st: Store, c: Call, e: Env, r: KeyRecord)
    requires r.uid in st.keys && st.keys[r.uid] == r
    ensures var (st', reply) := MemStep(su, st, c, e); Applied(c, Complete(Mem(st'), reply), r).uid == r.uid
  {
  }

  /** A call that adds nothing and changes no state leaves the keys alone or waits to write. */
  lemma SqlReadsOnly(su: Suite, db: Database, c: Call, e: Env)
    requires Allowed(c) && !c.Create? && !c.Register? && !c.Activate? && !c.Destroy? && !c.Revoke?
    requires Begin(su, Sql(db), c, e).Complete?
    ensures Begin(su, Sql(db), c, e).b == Sql(db) && (c.Rekey? ==> !Succeeds(Begin(su, Sql(db), c, e)))
  {
  }

  lemma SqlChangeState(su: Suite, db: Database, c: Call, e: Env, p: Progress, r: KeyRecord) returns (r': KeyRecord)
    requires UniqueKeys(db.keys) && r in db.keys && (c.Activate? || c.Destroy? || c.Revoke?)
    ensures Became(Sql(SqlStep(su, db, c, e).0), r, r') && r' == Applied(c, p, r)
  {
    match c
    case Activate(uid) => r' := AfterUpdate(db, SetState(ACTIVE), uid, r);
    case Destroy(uid) => r' := AfterUpdate(db, SetStateMaterial(DESTROYED, []), uid, r);
    case Revoke(uid, reason) => r' := AfterUpdate(db, SetStateReason(COMPROMISED, reason), uid, r);
  }

  /** A call that adds a record or changes a state is one statement. */
  lemma SqlInOneStep(su: Suite, db: Database, c: Call, e: Env)
    requires c.Create? || c.Register? || c.Activate? || c.Destroy? || c.Revoke?
    ensures Begin(su, Sql(db), c, e) == Complete(Sql(SqlStep(su, db, c, e).0), SqlStep(su, db, c, e).1)
  {
  }

  /** One statement, and what it leaves of a record. */
  lemma SqlWholeState(su: Suite, db: Database, c: Call, e: Env, r: KeyRecord) returns (r': KeyRecord)
    requires UniqueKeys(db.keys) && e.uid != r.uid && r in db.keys
    requires c.Create? || c.Register? || c.Activate? || c.Destroy? || c.Revoke?
    ensures var (db', reply) := SqlStep(su, db, c, e); Became(Sql(db'), r, r') && r' == Applied(c, Complete(Sql(db'), reply), r)
  {
    var (db', reply) := SqlStep(su, db, c, e);
    if c.Create? || c.Register? {
      r' := r;
      AddedRow(su, db, c, e, r);
    } else {
      r' := SqlChangeState(su, db, c, e, Complete(Sql(db'), reply), r);
    }
  }

  lemma SqlKeptState(su: Suite, db: Database, c: Call, e: Env, p: Progress, r: KeyRecord)
    requires UniqueKeys(db.keys) && Allowed(c) && r in db.keys
    requires !c.Create? && !c.Register? && !c.Activate? && !c.Destroy? && !c.Revoke?
    requires p == Begin(su, Sql(db), c, e) && p.Complete?
    ensures Became(p.b, r, r) && Applied(c, p, r) == r
  {
    SqlReadsOnly(su, db, c, e);
    KeptRow(db, r);
  }

  lemma SqlBeginState(su: Suite, db: Database, c: Call, e: Env, p: Progress, r: KeyRecord) returns (r': KeyRecord)
    requires UniqueKeys(db.keys) && Allowed(c) && e.uid != r.uid && r in db.keys
    requires p == Begin(su, Sql(db), c, e) && p.Complete?
    ensures Became(p.b, r, r') && r' == Applied(c, p, r)
  {
    if c.Create? || c.Register? || c.Activate? || c.Destroy? || c.Revoke? {
      SqlInOneStep(su, db, c, e);
      r' := SqlWholeState(su, db, c, e, r);
    } else {
      r' := r;
      SqlKeptState(su, db, c, e, p, r);
    }
  }

  lemma AfterUpdate(db: Database, a: Assignment, uid: string, r: KeyRecord) returns (r': KeyRecord)
    requires UniqueKeys(db.keys) && r in db.keys
    ensures Became(Sql(SqlUpdate(db, a, UidNotIn(uid, DESTROYED)).0), r, r')
    ensures r' == if r.uid == uid && r.state != DESTROYED then Assign(a, r) else r
  {
    var w := UidNotIn(uid, DESTROYED);
    r' := if Matches(w, r) then Assign(a, r) else r;
    UpdatedRow(db, a, w, r);
  }

  lemma EndState(b: Backend, w: Write, e: Env, r: KeyRecord) returns (r': KeyRecord)
    requires SoundStore(b) && Unused(b, e.uid) && Holds(b, r)
    ensures Became(End(b, w, e).0, r, r') && r' == if b.Sql? then Written(w, r) else r
  {
    r' := r;
    if b.Sql? {
      match w
      case WriteRekey(uid, rec) => r' := AfterUpdate(b.db, SetMaterialVersion(rec.material, rec.version), uid, r);
      case WriteRecord(rec) => InsertedRow(b.db, rec.(uid := e.uid, createdAt := e.now), r);
      case _ => KeptRow(b.db, r);
    }
  }

  lemma BeginState(su: Suite, b: Backend, c: Call, e: Env, r: KeyRecord) returns (r': KeyRecord)
    requires SoundStore(b) && Allowed(c) && Unused(b, e.uid) && Holds(b, r)
    ensures match Begin(su, b, c, e)
      case Complete(b', _) => Became(b', r, r')
      case Suspended(_) => Became(b, r, r')
    ensures r' == Applied(c, Begin(su, b, c, e), r)
  {
    r' := r;
    if Begin(su, b, c, e).Suspended? {
      if b.Sql? { KeptRow(b.db, r); }
    } else if b.Mem? {
      r' := MemBeginState(su, b.st, c, e, Begin(su, b, c, e), r);
    } else {
      r' := SqlBeginState(su, b.db, c, e, Begin(su, b, c, e), r);
    }
  }

  /** State and version of the record a call leaves. */
  lemma AppliedState(su: Suite, b: Backend, c: Call, e: Env, r: KeyRecord)
    requires SoundStore(b) && Holds(b, r)
    ensures var r' := Applied(c, Begin(su, b, c, e), r);
      && r'.state == StateAfter(c, r)
      && r'.version == if c == Rekey(r.uid) && Succeeds(Begin(su, b, c, e)) then r.version + 1 else r.version
  {
    if c == Rekey(r.uid) && Succeeds(Begin(su, b, c, e)) {
      LockedRekey(su, b, e, r);
    }
  }

  lemma Unmoved(b: Backend, r: KeyRecord)
    requires SoundStore(b) && Holds(b, r)
    ensures Became(b, r, r)
  {
    if b.Sql? { KeptRow(b.db, r); }
  }

  /** The version an action leaves a record with: one more after a locked rekey, one
      more than was read after the write half of a SQL rekey. */
  ghost function VersionAfter(su: Suite, s: System, a: Action, r: KeyRecord): int {
    if Completes(s, a, r.uid) then
      if s.b.Sql? && r.state != DESTROYED then Waiting(s, a.tid).value.rec.version else r.version
    else if Rekeyed(su, s, a, r.uid) then r.version + 1
    else r.version
  }

  /** The record an action leaves, field by field. */
  ghost function RecordAfter(su: Suite, s: System, a: Action, r: KeyRecord): KeyRecord {
    match Performs(su, s, a)
    case Some(c) => Applied(c, Begin(su, s.b, c, a.e), r)
    case None => if a.Advance? && Waiting(s, a.tid).Some? && s.b.Sql? then Written(Waiting(s, a.tid).value, r) else r
  }

  /** Every action of every request leaves a record as the call it begins or completes
      puts it. */
  lemma NextState(su: Suite, s: System, a: Action, r: KeyRecord) returns (r': KeyRecord)
    requires Sound(s) && Unused(s.b, a.e.uid) && Holds(s.b, r)
    ensures Became(Next(su, s, a).b, r, r') && r' == RecordAfter(su, s, a, r)
    ensures r'.state == match Performs(su, s, a) case Some(c) => StateAfter(c, r) case None => r.state
    ensures r'.version == VersionAfter(su, s, a, r)
  {
    r' := NextRecord(su, s, a, r);
    if Performs(su, s, a).Some? {
      AppliedState(su, s.b, Performs(su, s, a).value, a.e, r);
    }
  }

  lemma NextRecord(su: Suite, s: System, a: Action, r: KeyRecord) returns (r': KeyRecord)
    requires Sound(s) && Unused(s.b, a.e.uid) && Holds(s.b, r)
    ensures Became(Next(su, s, a).b, r, r') && r' == RecordAfter(su, s, a, r)
  {
    Unmoved(s.b, r);
    r' := r;
    match a
    case Arrive(tid, item, clientCN, o, e) =>
      if tid !in s.threads && Start(item, clientCN, o).Ask? {
        FirstCallAllowed(item, clientCN, o);
        r' := BeginState(su, s.b, Start(item, clientCN, o).call, e, r);
      }
    case Rest(tid, call, e) =>
      if tid !in s.threads && RestCall(call) {
        r' := BeginState(su, s.b, call, e, r);
      }
    case Advance(tid, e) =>
      if tid in s.threads {
        var t := s.threads[tid];
        assert SoundThread(t);
        if t.Between? {
          var next := Continue(su, t.item, t.clientCN, t.o, t.r1);
          if next.Ask? {
            SecondCallAllowed(su, t.item, t.clientCN, t.o, t.r1);
            r' := BeginState(su, s.b, next.call, e, r);
          }
        } else {
          r' := EndState(s.b, t.w, e, r);
        }
      }
  }

  /** A request that has still to write a rekey has just read the live record, or was
      waiting before and this action is not its own. */
  lemma WaitingStep(su: Suite, s: System, a: Action, tid: nat)
    requires Waiting(Next(su, s, a), tid).Some? && Waiting(Next(su, s, a), tid).value.WriteRekey?
    ensures var w := Waiting(Next(su, s, a), tid).value;
      if a.tid == tid && Performs(su, s, a) == Some(Rekey(w.uid))
      then Begin(su, s.b, Rekey(w.uid), a.e) == Suspended(w)
      else Waiting(s, tid) == Some(w) && !(a.Advance? && a.tid == tid)
  {
  }

  lemma LookupFinds(b: Backend, r: KeyRecord)
    requires SoundStore(b) && Holds(b, r) && r.state != DESTROYED
    ensures Lookup(b, r.uid) == Found(r)
  {
    if b.Sql? {
      SelectOne(b.db.keys, UidNotIn(r.uid, DESTROYED), r.uid);
    }
  }

  lemma LookupHolds(b: Backend, uid: string)
    requires SoundStore(b) && Lookup(b, uid).Found?
    ensures var r := Lookup(b, uid).rec; Holds(b, r) && r.uid == uid && r.state != DESTROYED
  {
    if b.Sql? {
      var rows := Select(b.db.keys, UidNotIn(uid, DESTROYED));
      assert rows[0] in rows;
    }
  }

  lemma LookupFails(b: Backend, uid: string)
    requires Unused(b, uid)
    ensures Lookup(b, uid).Failed?
  {
    if b.Sql? {
      forall r | r in b.db.keys
        ensures r.uid != uid
      {
        var i :| 0 <= i < |b.db.keys| && b.db.keys[i] == r;
      }
      SelectNothing(b.db.keys, UidNotIn(uid, DESTROYED));
    }
  }

  /** The read half of a rekey sees the record live and plans the next version. */
  lemma RekeyReads(su: Suite, b: Backend, e: Env, r: KeyRecord)
    requires SoundStore(b) && Holds(b, r) && Begin(su, b, Rekey(r.uid), e).Suspended?
    ensures var w := Begin(su, b, Rekey(r.uid), e).w;
      && b.Sql? && r.state != DESTROYED && w.WriteRekey? && w.uid == r.uid && w.rec.version == r.version + 1
      && ValidLength(r.length) && |w.rec.material| == r.length / 8
  {
    SelectOne(b.db.keys, UidNotIn(r.uid, DESTROYED), r.uid);
  }
}
