/** Requests running at the same time. Every storage call is split where the code
    releases its lock or issues a second statement, every KMIP item is split between
    its storage calls, and REST calls come in ungated at any point. */
module Concurrency {
  import opened KeyTypes
  import opened StoreModel
  import opened SqlModel
  import opened Backends
  import opened Storage
  import opened Kmip

  /** The second half of a call that looks a record up before it writes. */
  datatype Write =
    | WriteRekey(uid: string, rec: KeyRecord)
    | WriteRecord(rec: KeyRecord)
    | WriteAttribute(uid: string, name: string, value: string)
    | EraseAttribute(uid: string, name: string)
    | ReadAttributes(uid: string)

  datatype Progress = Complete(b: Backend, r: Reply) | Suspended(w: Write)

  ghost function Lookup(b: Backend, uid: string): Reply {
    match b
    case Mem(st) => MemGet(st, uid)
    case Sql(db) => SqlGet(db, uid)
  }

  /** The first atomic action of a call. In memory Rekey holds the lock throughout;
      in SQL it is a read followed by a guarded UPDATE. */
  ghost function Begin(su: Suite, b: Backend, c: Call, e: Env): Progress {
    match c
    case Rekey(uid) =>
      if b.Mem? then Complete(Mem(MemRekey(b.st, uid, e).0), MemRekey(b.st, uid, e).1)
      else
        var read := RekeyRead(b.db, uid, e);
        if read.None? then Complete(b, Failed) else Suspended(WriteRekey(uid, read.value))
    case DeriveKey(source, data, name, length) =>
      var src := Lookup(b, source);
      if !src.Found? then Complete(b, Failed)
      else
        var derived := Derived(su, src.rec, data, name, length, e);
        if derived.None? then Complete(b, Failed) else Suspended(WriteRecord(derived.value))
    case GetCustomAttributes(uid) => if Lookup(b, uid).Found? then Suspended(ReadAttributes(uid)) else Complete(b, Failed)
    case SetCustomAttribute(uid, name, value) =>
      if Lookup(b, uid).Found? then Suspended(WriteAttribute(uid, name, value)) else Complete(b, Failed)
    case DeleteCustomAttribute(uid, name) =>
      if Lookup(b, uid).Found? then Suspended(EraseAttribute(uid, name)) else Complete(b, Failed)
    case _ => var (b', r) := Invoke(su, b, c, e); Complete(b', r)
  }

  /** The second atomic action. A new record gets its uid and time here. */
  ghost function End(b: Backend, w: Write, e: Env): (Backend, Reply) {
    match w
    case WriteRekey(uid, rec) => (if b.Sql? then Sql(RekeyWrite(b.db, uid, rec)) else b, Found(rec))
    case WriteRecord(rec0) =>
      var rec := rec0.(uid := e.uid, createdAt := e.now);
      (match b
       case Mem(st) => (Mem(Put(st, rec)), Found(rec))
       case Sql(db) => var (db', r) := SqlInsert(db, rec); (Sql(db'), r))
    case WriteAttribute(uid, name, value) =>
      (match b
       case Mem(st) => Mem(MemSetAttr(st, uid, name, value))
       case Sql(db) => Sql(db.(attributes := Upsert(db.attributes, AttrRow(uid, name, value)))), Done)
    case EraseAttribute(uid, name) =>
      (match b
       case Mem(st) => Mem(MemDeleteAttr(st, uid, name))
       case Sql(db) => Sql(db.(attributes := DeleteAttr(db.attributes, uid, name))), Done)
    case ReadAttributes(uid) =>
      (b, Attributes(match b
                     case Mem(st) => AttrsOf(st, uid)
                     case Sql(db) => AttrMap(SelectAttrs(db.attributes, uid))))
  }

  /** A call nobody interrupts is the atomic call. */
  lemma UninterruptedCall(su: Suite, b: Backend, c: Call, e: Env)
    ensures match Begin(su, b, c, e)
      case Complete(b', r) => (b', r) == Invoke(su, b, c, e)
      case Suspended(w) => End(b, w, e) == Invoke(su, b, c, e)
  {
  }

  /** Calls that look a key up before they write let go of the store in between: every
      one of them on attributes, a derivation within its limit, and on SQL a rekey. */
  lemma CallsAreSplit(su: Suite, b: Backend, c: Call, e: Env, uid: string)
    requires Lookup(b, uid).Found?
    requires
      || c == GetCustomAttributes(uid)
      || (c.SetCustomAttribute? && c.uid == uid)
      || (c.DeleteCustomAttribute? && c.uid == uid)
      || (c.DeriveKey? && c.source == uid && c.length / 8 <= 512)
      || (b.Sql? && c == Rekey(uid) && 1 <= Lookup(b, uid).rec.length <= 32768 && e.entropy.Some?)
    ensures Begin(su, b, c, e).Suspended?
  {
  }

  /** A request in progress: a KMIP item inside or between its storage calls, or a REST call. */
  datatype Thread =
    | InFirst(item: BatchItem, clientCN: string, o: Oracle, w: Write)
    | Between(item: BatchItem, clientCN: string, o: Oracle, r1: Reply)
    | InSecond(w: Write)
    | InRest(w: Write)

  datatype System = System(b: Backend, threads: map<nat, Thread>)

  datatype Action =
    | Arrive(tid: nat, item: BatchItem, clientCN: string, o: Oracle, e: Env)
    | Rest(tid: nat, call: Call, e: Env)
    | Advance(tid: nat, e: Env)

  /** The storage calls the REST handlers make. */
  predicate RestCall(c: Call) {
    c.Create? || c.Register? || c.Get? || c.List? || c.Activate? || c.Revoke? || c.Destroy? || c.Rekey?
  }

  /** One atomic action of one request. */
  ghost function Next(su: Suite, s: System, a: Action): System {
    match a
    case Arrive(tid, item, clientCN, o, e) =>
      if tid in s.threads || Start(item, clientCN, o).Answer? then s
      else
        (match Begin(su, s.b, Start(item, clientCN, o).call, e)
         case Complete(b', r1) => System(b', s.threads[tid := Between(item, clientCN, o, r1)])
         case Suspended(w) => s.(threads := s.threads[tid := InFirst(item, clientCN, o, w)]))
    case Rest(tid, call, e) =>
      if tid in s.threads || !RestCall(call) then s
      else
        (match Begin(su, s.b, call, e)
         case Complete(b', r) => s.(b := b')
         case Suspended(w) => s.(threads := s.threads[tid := InRest(w)]))
    case Advance(tid, e) =>
      if tid !in s.threads then s
      else
        (match s.threads[tid]
         case InFirst(item, clientCN, o, w) =>
           var (b', r1) := End(s.b, w, e);
           System(b', s.threads[tid := Between(item, clientCN, o, r1)])
         case Between(item, clientCN, o, r1) =>
           if Start(item, clientCN, o).Answer? || Continue(su, item, clientCN, o, r1).Answer? then s.(threads := s.threads - {tid})
           else
             (match Begin(su, s.b, Continue(su, item, clientCN, o, r1).call, e)
              case Complete(b', _) => System(b', s.threads - {tid})
              case Suspended(w) => s.(threads := s.threads[tid := InSecond(w)]))
         case InSecond(w) => System(End(s.b, w, e).0, s.threads - {tid})
         case InRest(w) => System(End(s.b, w, e).0, s.threads - {tid}))
  }

  ghost predicate DistinctActions(acts: seq<Action>) {
    forall i, j :: 0 <= i < j < |acts| ==> acts[i].e.uid != acts[j].e.uid
  }

  predicate Reachable(state: KeyState) {
    state == PRE_ACTIVE || state == ACTIVE || state == COMPROMISED || state == DESTROYED
  }

  predicate Proper(r: KeyRecord) {
    Reachable(r.state) && (r.state == DESTROYED ==> r.material == [])
  }

  /** One record per uid, in a reachable state, with no material once destroyed. */
  ghost predicate SoundStore(b: Backend) {
    && (forall r :: Holds(b, r) ==> Proper(r))
    && match b
       case Mem(st) => Keyed(st)
       case Sql(db) => UniqueKeys(db.keys)
  }

  predicate ProperWrite(w: Write) {
    (w.WriteRecord? ==> w.rec.state == PRE_ACTIVE) && (w.WriteRekey? ==> Reachable(w.rec.state))
  }

  predicate ProperReply(r: Reply) {
    r.Found? ==> Reachable(r.rec.state)
  }

  ghost predicate SoundThread(t: Thread) {
    match t
    case InFirst(item, clientCN, o, w) => Start(item, clientCN, o).Ask? && ProperWrite(w)
    case Between(item, clientCN, o, r1) => Start(item, clientCN, o).Ask? && ProperReply(r1)
    case InSecond(w) => ProperWrite(w)
    case InRest(w) => ProperWrite(w)
  }

  ghost predicate Sound(s: System) {
    SoundStore(s.b) && forall t :: t in s.threads ==> SoundThread(s.threads[t])
  }

  ghost predicate GoneRows(rows: seq<KeyRecord>, uid: string) {
    && (exists i :: 0 <= i < |rows| && rows[i].uid == uid)
    && (forall i :: 0 <= i < |rows| && rows[i].uid == uid ==> rows[i].state == DESTROYED && rows[i].material == [])
  }

  /** Destroyed for good: the record is there, Destroyed and empty. */
  ghost predicate Gone(b: Backend, uid: string) {
    match b
    case Mem(st) => uid in st.keys && st.keys[uid].state == DESTROYED && st.keys[uid].material == []
    case Sql(db) => GoneRows(db.keys, uid)
  }

  /** No storage read shows the key. */
  ghost predicate Hidden(su: Suite, b: Backend, uid: string) {
    && Lookup(b, uid).Failed?
    && (forall name, e :: uid !in Invoke(su, b, Locate(name), e).1.uids)
    && (forall r, e :: r in Invoke(su, b, List, e).1.recs ==> r.uid != uid)
  }

  /** An assignment that turns live proper records into proper ones. */
  predicate ProperAssignment(a: Assignment) {
    match a
    case SetState(state) => state == ACTIVE
    case SetStateMaterial(state, material) => state == DESTROYED && material == []
    case SetStateReason(state, _) => state == COMPROMISED
    case SetMaterialVersion(_, _) => true
  }

  lemma SqlUpdateSound(rows: seq<KeyRecord>, a: Assignment, uid: string)
    requires ProperAssignment(a) && UniqueKeys(rows) && forall r :: r in rows ==> Proper(r)
    ensures var rows' := Update(rows, a, UidNotIn(uid, DESTROYED));
      && UniqueKeys(rows') && (forall r :: r in rows' ==> Proper(r))
      && (forall u :: GoneRows(rows, u) ==> GoneRows(rows', u))
  {
    var rows' := Update(rows, a, UidNotIn(uid, DESTROYED));
    forall i | 0 <= i < |rows|
      ensures rows'[i].uid == rows[i].uid && Proper(rows'[i])
      ensures rows[i].state == DESTROYED ==> rows'[i] == rows[i]
    {
      assert rows[i] in rows;
    }
    forall u | GoneRows(rows, u)
      ensures GoneRows(rows', u)
    {
      var i :| 0 <= i < |rows| && rows[i].uid == u;
      assert rows'[i].uid == u;
    }
  }

  lemma SqlInsertSound(db: Database, rec: KeyRecord)
    requires SoundStore(Sql(db)) && rec.state == PRE_ACTIVE
    ensures var (db', r) := SqlInsert(db, rec);
      && SoundStore(Sql(db')) && ProperReply(r)
      && (forall u :: GoneRows(db.keys, u) && u != rec.uid ==> GoneRows(db'.keys, u))
  {
    var rows' := db.keys + [rec];
    assert forall i :: 0 <= i < |db.keys| ==> Holds(Sql(db), db.keys[i]);
    forall u | GoneRows(db.keys, u) && u != rec.uid
      ensures GoneRows(rows', u)
    {
      var i :| 0 <= i < |db.keys| && db.keys[i].uid == u;
      assert rows'[i].uid == u;
    }
  }

  /** What an atomic action must keep. */
  ghost predicate Keeps(b: Backend, b': Backend) {
    SoundStore(b') && forall u :: Gone(b, u) ==> Gone(b', u)
  }

  lemma SqlChangeSound(db: Database, a: Assignment, uid: string)
    requires SoundStore(Sql(db)) && ProperAssignment(a)
    ensures Keeps(Sql(db), Sql(SqlUpdate(db, a, UidNotIn(uid, DESTROYED)).0))
  {
    assert forall r :: r in db.keys ==> Holds(Sql(db), r);
    SqlUpdateSound(db.keys, a, uid);
  }

  lemma MemPutSound(st: Store, rec: KeyRecord)
    requires SoundStore(Mem(st)) && rec.uid !in st.keys && rec.state == PRE_ACTIVE
    ensures Keeps(Mem(st), Mem(Put(st, rec)))
  {
    forall r | Holds(Mem(Put(st, rec)), r)
      ensures Proper(r)
    {
      assert r == rec || Holds(Mem(st), r);
    }
  }

  lemma MemChangeSound(st: Store, uid: string, rec: KeyRecord)
    requires SoundStore(Mem(st)) && Live(st, uid) && rec.uid == uid && Proper(rec)
    ensures Keeps(Mem(st), Mem(st.(keys := st.keys[uid := rec])))
  {
    forall r | Holds(Mem(st.(keys := st.keys[uid := rec])), r)
      ensures Proper(r)
    {
      assert r == rec || Holds(Mem(st), r);
    }
  }

  predicate Allowed(c: Call) {
    !c.Archive? && !c.Recover?
  }

  lemma MemBeginSound(su: Suite, st: Store, c: Call, e: Env)
    requires SoundStore(Mem(st)) && Allowed(c) && e.uid !in st.keys
    ensures match Begin(su, Mem(st), c, e)
      case Complete(b', r) => b'.Mem? && Keeps(Mem(st), b') && ProperReply(r)
      case Suspended(w) => ProperWrite(w)
  {
    assert forall u :: u in st.keys ==> Holds(Mem(st), st.keys[u]);
    match c
    case Create(name, algorithm, length, usageMask, owner) =>
      if MemCreate(st, name, algorithm, length, usageMask, owner, e).1.Found? {
        MemPutSound(st, MemCreate(st, name, algorithm, length, usageMask, owner, e).1.rec);
      }
    case Register(rec) => MemPutSound(st, Registered(rec, e));
    case Activate(uid) => if Live(st, uid) { MemChangeSound(st, uid, st.keys[uid].(state := ACTIVE)); }
    case Destroy(uid) => if Live(st, uid) { MemChangeSound(st, uid, st.keys[uid].(material := [], state := DESTROYED)); }
    case Revoke(uid, reason) =>
      if Live(st, uid) { MemChangeSound(st, uid, st.keys[uid].(state := COMPROMISED, revocationReason := reason)); }
    case Rekey(uid) =>
      if MemRekey(st, uid, e).1.Found? { MemChangeSound(st, uid, MemRekey(st, uid, e).1.rec); }
    case _ =>
  }

  lemma SqlBeginSound(su: Suite, db: Database, c: Call, e: Env)
    requires SoundStore(Sql(db)) && Allowed(c) && Unused(Sql(db), e.uid)
    ensures match Begin(su, Sql(db), c, e)
      case Complete(b', r) => b'.Sql? && Keeps(Sql(db), b') && ProperReply(r)
      case Suspended(w) => ProperWrite(w)
  {
    match c
    case Create(name, algorithm, length, usageMask, owner) =>
      if ValidLength(length) && e.entropy.Some? {
        SqlInsertSound(db, NewRecord(name, algorithm, length, usageMask, owner, RandomBytes(e.entropy.value, length / 8), e));
      }
    case Register(rec) => SqlInsertSound(db, Registered(rec, e));
    case Activate(uid) => SqlChangeSound(db, SetState(ACTIVE), uid);
    case Destroy(uid) => SqlChangeSound(db, SetStateMaterial(DESTROYED, []), uid);
    case Revoke(uid, reason) => SqlChangeSound(db, SetStateReason(COMPROMISED, reason), uid);
    case _ => SqlReadSound(db, c);
  }

  lemma SqlReadSound(db: Database, c: Call)
    requires SoundStore(Sql(db))
    requires c.Get? || c.GetAttributes? || c.Locate? || c.List? || c.Rekey? || c.DeriveKey?
      || c.GetCustomAttributes? || c.SetCustomAttribute? || c.DeleteCustomAttribute?
    ensures forall uid :: SqlGet(db, uid).Found? ==> Reachable(SqlGet(db, uid).rec.state)
  {
    forall uid | SqlGet(db, uid).Found?
      ensures Reachable(SqlGet(db, uid).rec.state)
    {
      var rows := Select(db.keys, UidNotIn(uid, DESTROYED));
      assert rows[0] in rows;
      assert Holds(Sql(db), rows[0]);
    }
  }

  lemma EndSound(b: Backend, w: Write, e: Env)
    requires SoundStore(b) && ProperWrite(w) && Unused(b, e.uid)
    ensures (b.Mem? <==> End(b, w, e).0.Mem?) && Keeps(b, End(b, w, e).0) && ProperReply(End(b, w, e).1)
  {
    match w
    case WriteRekey(uid, rec) =>
      if b.Sql? { SqlChangeSound(b.db, SetMaterialVersion(rec.material, rec.version), uid); }
    case WriteRecord(rec) =>
      if b.Sql? { SqlInsertSound(b.db, rec.(uid := e.uid, createdAt := e.now)); }
      else { MemPutSound(b.st, rec.(uid := e.uid, createdAt := e.now)); }
    case _ => SameKeys(b, End(b, w, e).0);
  }

  lemma SameKeys(b: Backend, b': Backend)
    requires SoundStore(b)
    requires b.Mem? ==> b'.Mem? && b'.st.keys == b.st.keys
    requires b.Sql? ==> b'.Sql? && b'.db.keys == b.db.keys
    ensures Keeps(b, b')
  {
    assert forall r :: Holds(b', r) ==> Holds(b, r);
  }

  lemma BeginSound(su: Suite, b: Backend, c: Call, e: Env)
    requires SoundStore(b) && Allowed(c) && Unused(b, e.uid)
    ensures match Begin(su, b, c, e)
      case Complete(b', r) => (b.Mem? <==> b'.Mem?) && Keeps(b, b') && ProperReply(r)
      case Suspended(w) => ProperWrite(w)
  {
    if b.Mem? { MemBeginSound(su, b.st, c, e); } else { SqlBeginSound(su, b.db, c, e); }
  }

  lemma FirstCallAllowed(item: BatchItem, clientCN: string, o: Oracle)
    requires Start(item, clientCN, o).Ask?
    ensures Allowed(Start(item, clientCN, o).call)
  {
  }

  /** No lookup ever shows a Deactivated or Archived record, so the gate never lets
      Archive or Recover through. */
  lemma SecondCallAllowed(su: Suite, item: BatchItem, clientCN: string, o: Oracle, r1: Reply)
    requires Start(item, clientCN, o).Ask? && ProperReply(r1)
    requires Continue(su, item, clientCN, o, r1).Ask?
    ensures Allowed(Continue(su, item, clientCN, o, r1).call)
  {
  }

  lemma NextSound(su: Suite, s: System, a: Action)
    requires Sound(s) && Unused(s.b, a.e.uid)
    ensures var s' := Next(su, s, a); Sound(s') && (s.b.Mem? <==> s'.b.Mem?) && forall u :: Gone(s.b, u) ==> Gone(s'.b, u)
  {
    match a
    case Arrive(tid, item, clientCN, o, e) =>
      if tid !in s.threads && Start(item, clientCN, o).Ask? {
        FirstCallAllowed(item, clientCN, o);
        BeginSound(su, s.b, Start(item, clientCN, o).call, e);
      }
    case Rest(tid, call, e) =>
      if RestCall(call) {
        BeginSound(su, s.b, call, e);
      }
    case Advance(tid, e) =>
      if tid in s.threads {
        var t := s.threads[tid];
        assert SoundThread(t);
        if t.Between? {
          var next := Continue(su, t.item, t.clientCN, t.o, t.r1);
          if next.Ask? {
            SecondCallAllowed(su, t.item, t.clientCN, t.o, t.r1);
            BeginSound(su, s.b, next.call, e);
          }
        } else {
          EndSound(s.b, t.w, e);
        }
      }
  }

  /** An update leaves the uid column alone. */
  lemma UpdateKeepsUnused(db: Database, a: Assignment, w: Where, uid: string)
    requires Unused(Sql(db), uid)
    ensures Unused(Sql(db.(keys := Update(db.keys, a, w))), uid)
  {
  }

  lemma BeginUids(su: Suite, b: Backend, c: Call, e: Env, uid: string)
    requires Unused(b, uid) && uid != e.uid
    ensures Begin(su, b, c, e).Complete? ==> Unused(Begin(su, b, c, e).b, uid)
  {
    if b.Sql? {
      match c
      case Activate(u) => UpdateKeepsUnused(b.db, SetState(ACTIVE), UidNotIn(u, DESTROYED), uid);
      case Destroy(u) => UpdateKeepsUnused(b.db, SetStateMaterial(DESTROYED, []), UidNotIn(u, DESTROYED), uid);
      case Revoke(u, reason) => UpdateKeepsUnused(b.db, SetStateReason(COMPROMISED, reason), UidNotIn(u, DESTROYED), uid);
      case Archive(u) => UpdateKeepsUnused(b.db, SetState(ARCHIVED), UidNotIn(u, DESTROYED), uid);
      case Recover(u) => UpdateKeepsUnused(b.db, SetState(PRE_ACTIVE), UidIn(u, ARCHIVED), uid);
      case _ =>
    }
  }

  lemma EndUids(b: Backend, w: Write, e: Env, uid: string)
    requires Unused(b, uid) && uid != e.uid
    ensures Unused(End(b, w, e).0, uid)
  {
    if b.Sql? && w.WriteRekey? {
      UpdateKeepsUnused(b.db, SetMaterialVersion(w.rec.material, w.rec.version), UidNotIn(w.uid, DESTROYED), uid);
    }
  }

  /** The only uid an action can add is the one generated for it. */
  lemma NextUids(su: Suite, s: System, a: Action, uid: string)
    requires Unused(s.b, uid) && uid != a.e.uid
    ensures Unused(Next(su, s, a).b, uid)
  {
    match a
    case Arrive(tid, item, clientCN, o, e) =>
      if Start(item, clientCN, o).Ask? {
        BeginUids(su, s.b, Start(item, clientCN, o).call, e, uid);
      }
    case Rest(tid, call, e) => BeginUids(su, s.b, call, e, uid);
    case Advance(tid, e) =>
      if tid in s.threads {
        var t := s.threads[tid];
        if t.Between? {
          if Start(t.item, t.clientCN, t.o).Ask? && Continue(su, t.item, t.clientCN, t.o, t.r1).Ask? {
            BeginUids(su, s.b, Continue(su, t.item, t.clientCN, t.o, t.r1).call, e, uid);
          }
        } else {
          EndUids(s.b, t.w, e, uid);
        }
      }
  }

  /** Either backend, empty, with no request in progress. */
  predicate Initial(s: System) {
    s.threads == map[] && (s.b == Mem(EMPTY_STORE) || s.b == Sql(EMPTY_DATABASE))
  }

  ghost predicate Stepped(su: Suite, acts: seq<Action>, states: seq<System>, i: nat)
    requires i < |acts| && |states| == |acts| + 1
  {
    states[i + 1] == Next(su, states[i], acts[i])
  }

  /** Any interleaving of KMIP and REST requests from an empty store, with uids that
      are never generated twice. */
  ghost predicate Trace(su: Suite, acts: seq<Action>, states: seq<System>) {
    && |states| == |acts| + 1 && Initial(states[0])
    && (forall i :: 0 <= i < |acts| ==> Stepped(su, acts, states, i))
    && DistinctActions(acts)
  }

  lemma {:induction false} TraceUids(su: Suite, acts: seq<Action>, states: seq<System>, n: nat, uid: string)
    requires Trace(su, acts, states) && n <= |acts| && forall i :: 0 <= i < n ==> acts[i].e.uid != uid
    ensures Unused(states[n].b, uid)
  {
    if n > 0 {
      TraceUids(su, acts, states, n - 1, uid);
      assert Stepped(su, acts, states, n - 1);
      NextUids(su, states[n - 1], acts[n - 1], uid);
    }
  }

  lemma StepSound(su: Suite, acts: seq<Action>, states: seq<System>, n: nat)
    requires Trace(su, acts, states) && n < |acts| && Sound(states[n])
    ensures Sound(states[n + 1]) && forall u :: Gone(states[n].b, u) ==> Gone(states[n + 1].b, u)
  {
    TraceUids(su, acts, states, n, acts[n].e.uid);
    assert Stepped(su, acts, states, n);
    NextSound(su, states[n], acts[n]);
  }

  /** Every interleaving keeps the store sound and what is gone, gone. */
  lemma {:induction false} TraceSound(su: Suite, acts: seq<Action>, states: seq<System>, n: nat)
    requires Trace(su, acts, states) && n <= |acts|
    ensures Sound(states[n])
    ensures n > 0 ==> forall u :: Gone(states[n - 1].b, u) ==> Gone(states[n].b, u)
  {
    if n > 0 {
      TraceSound(su, acts, states, n - 1);
      StepSound(su, acts, states, n - 1);
    }
  }

  lemma {:induction false} GoneStays(su: Suite, acts: seq<Action>, states: seq<System>, i: nat, j: nat, uid: string)
    requires Trace(su, acts, states) && i <= j <= |acts|
    requires Gone(states[i].b, uid)
    ensures Gone(states[j].b, uid)
  {
    if i < j {
      GoneStays(su, acts, states, i, j - 1, uid);
      TraceSound(su, acts, states, j);
    }
  }

  lemma DestroyedIsGone(b: Backend, r: KeyRecord)
    requires SoundStore(b) && Holds(b, r) && r.state == DESTROYED
    ensures Gone(b, r.uid)
  {
    assert Proper(r);
    if b.Sql? {
      var k :| 0 <= k < |b.db.keys| && b.db.keys[k] == r;
      assert forall i :: 0 <= i < |b.db.keys| && b.db.keys[i].uid == r.uid ==> i == k;
    }
  }

  lemma GoneRowsUnselected(rows: seq<KeyRecord>, uid: string)
    requires GoneRows(rows, uid)
    ensures Select(rows, UidNotIn(uid, DESTROYED)) == []
    ensures forall r :: r in rows && r.state != DESTROYED ==> r.uid != uid
  {
    forall r | r in rows && r.uid == uid
      ensures r.state == DESTROYED
    {
      var i :| 0 <= i < |rows| && rows[i] == r;
    }
    SelectNothing(rows, UidNotIn(uid, DESTROYED));
  }

  lemma {:induction false} SelectNothing(rows: seq<KeyRecord>, w: Where)
    requires forall r :: r in rows ==> !Matches(w, r)
    ensures Select(rows, w) == []
  {
    if rows != [] {
      SelectNothing(rows[..|rows| - 1], w);
    }
  }

  lemma GoneRowsUnlisted(rows: seq<KeyRecord>, uid: string, name: string)
    requires GoneRows(rows, uid)
    ensures uid !in UidsOf(Select(rows, NameNotIn(name, DESTROYED)))
    ensures forall r :: r in Select(rows, NotIn(DESTROYED)) ==> r.uid != uid
  {
    GoneRowsUnselected(rows, uid);
    var hits := Select(rows, NameNotIn(name, DESTROYED));
    forall k | 0 <= k < |hits|
      ensures UidsOf(hits)[k] != uid
    {
      assert hits[k] in hits;
    }
  }

  lemma GoneIsHidden(su: Suite, b: Backend, uid: string)
    requires SoundStore(b) && Gone(b, uid)
    ensures Hidden(su, b, uid)
  {
    if b.Sql? {
      GoneRowsUnselected(b.db.keys, uid);
      forall name, e
        ensures uid !in Invoke(su, b, Locate(name), e).1.uids
      {
        GoneRowsUnlisted(b.db.keys, uid, name);
      }
      forall r, e | r in Invoke(su, b, List, e).1.recs
        ensures r.uid != uid
      {
        GoneRowsUnlisted(b.db.keys, uid, "");
        assert r in Select(b.db.keys, NotIn(DESTROYED));
      }
    }
  }

  /** Destroy is absorbing: once a record is Destroyed it stays Destroyed with no
      material and no storage read shows it, whatever KMIP and REST requests run in
      between and however their steps interleave. */
  lemma DestroyIsAbsorbing(su: Suite, acts: seq<Action>, states: seq<System>, i: nat, j: nat, r: KeyRecord)
    requires Trace(su, acts, states) && i <= j <= |acts|
    requires Holds(states[i].b, r) && r.state == DESTROYED
    ensures Gone(states[j].b, r.uid)
    ensures Hidden(su, states[j].b, r.uid)
  {
    TraceSound(su, acts, states, i);
    DestroyedIsGone(states[i].b, r);
    GoneStays(su, acts, states, i, j, r.uid);
    TraceSound(su, acts, states, j);
    GoneIsHidden(su, states[j].b, r.uid);
  }

  /** Every listed record is PreActive, Active or Compromised, in every interleaving. */
  lemma ListedStates(su: Suite, acts: seq<Action>, states: seq<System>, n: nat, e: Env, r: KeyRecord)
    requires Trace(su, acts, states) && n <= |acts|
    requires r in Invoke(su, states[n].b, List, e).1.recs
    ensures r.state == PRE_ACTIVE || r.state == ACTIVE || r.state == COMPROMISED
  {
    TraceSound(su, acts, states, n);
    var b := states[n].b;
    if b.Mem? {
      assert r in LiveRecords(b.st);
      assert Holds(b, r);
    } else {
      assert r in Select(b.db.keys, NotIn(DESTROYED));
      assert Holds(b, r);
    }
  }

  lemma RekeyPlans(su: Suite, db: Database, row: KeyRecord, e: Env)
    requires UniqueKeys(db.keys) && row in db.keys && row.state != DESTROYED && ValidLength(row.length) && e.entropy.Some?
    ensures var p := Begin(su, Sql(db), Rekey(row.uid), e);
      p.Suspended? && p.w.WriteRekey? && p.w.uid == row.uid && p.w.rec.version == row.version + 1
  {
    SelectOne(db.keys, UidNotIn(row.uid, DESTROYED), row.uid);
  }

  lemma RekeyLands(db: Database, row: KeyRecord, rec: KeyRecord)
    requires row in db.keys && row.state != DESTROYED
    ensures row.(material := rec.material, version := rec.version) in RekeyWrite(db, row.uid, rec).keys
  {
    var k :| 0 <= k < |db.keys| && db.keys[k] == row;
    assert RekeyWrite(db, row.uid, rec).keys[k] == row.(material := rec.material, version := rec.version);
  }

  /** Two overlapping SQL rekeys both succeed but the version goes up by one. */
  lemma OverlappingRekeysLoseOne(su: Suite, db: Database, uid: string, row: KeyRecord, e1: Env, e2: Env)
    requires SoundStore(Sql(db)) && row in db.keys && row.uid == uid && row.state != DESTROYED
    requires ValidLength(row.length) && e1.entropy.Some? && e2.entropy.Some?
    ensures Begin(su, Sql(db), Rekey(uid), e1).Suspended? && Begin(su, Sql(db), Rekey(uid), e2).Suspended?
    ensures var (b1, r1) := End(Sql(db), Begin(su, Sql(db), Rekey(uid), e1).w, e1);
      var (b2, r2) := End(b1, Begin(su, Sql(db), Rekey(uid), e2).w, e2);
      && r1.Found? && r2.Found? && b2.Sql?
      && exists r :: r in b2.db.keys && r.uid == uid && r.version == row.version + 1
  {
    RekeyPlans(su, db, row, e1);
    RekeyPlans(su, db, row, e2);
    var w1, w2 := Begin(su, Sql(db), Rekey(uid), e1).w, Begin(su, Sql(db), Rekey(uid), e2).w;
    RekeyLands(db, row, w1.rec);
    var row1 := row.(material := w1.rec.material, version := w1.rec.version);
    RekeyLands(RekeyWrite(db, uid, w1.rec), row1, w2.rec);
    assert row1.(material := w2.rec.material, version := w2.rec.version).uid == uid;
  }

  /** A SQL rekey whose key is destroyed between its read and its write changes
      nothing and still reports success. */
  lemma RekeyAfterDestroyReportsSuccess(db: Database, uid: string, rec: KeyRecord, e: Env)
    requires GoneRows(db.keys, uid)
    ensures End(Sql(db), WriteRekey(uid, rec), e) == (Sql(db), Found(rec))
  {
    GoneRowsUnselected(db.keys, uid);
    var w := UidNotIn(uid, DESTROYED);
    assert forall i :: 0 <= i < |db.keys| && Matches(w, db.keys[i]) ==> db.keys[i] in Select(db.keys, w);
    assert Update(db.keys, SetMaterialVersion(rec.material, rec.version), w) == db.keys;
  }
}
