/** The two backends agree: a simulation between nested maps and flat tables,
    lifted to every sequence of storage calls. */
module Backends {
  import opened KeyTypes
  import opened StoreModel
  import opened SqlModel

  ghost predicate UniqueKeys(rows: seq<KeyRecord>) {
    forall i, j :: 0 <= i < j < |rows| ==> rows[i].uid != rows[j].uid
  }

  /** The table holds exactly the records of the map, one row each. */
  ghost predicate KeysAgree(keys: map<string, KeyRecord>, rows: seq<KeyRecord>) {
    && UniqueKeys(rows)
    && (forall i :: 0 <= i < |rows| ==> rows[i].uid in keys && keys[rows[i].uid] == rows[i])
    && (forall u :: u in keys ==> keys[u].uid == u && keys[u] in rows)
  }

  ghost predicate UniqueAttrs(rows: seq<AttrRow>) {
    forall i, j :: 0 <= i < j < |rows| ==> rows[i].uid != rows[j].uid || rows[i].name != rows[j].name
  }

  /** An attribute row for each entry of an inner map and no other. */
  ghost predicate AttrsAgree(attrs: map<string, map<string, string>>, rows: seq<AttrRow>) {
    && UniqueAttrs(rows)
    && (forall u, n, v :: AttrRow(u, n, v) in rows <==> u in attrs && n in attrs[u] && attrs[u][n] == v)
  }

  ghost predicate Agree(st: Store, db: Database) {
    KeysAgree(st.keys, db.keys) && AttrsAgree(st.attrs, db.attributes)
  }

  /** A clause that can only match rows of one uid. */
  predicate OnUid(w: Where, uid: string) {
    (w.UidNotIn? || w.UidIn?) && w.uid == uid
  }

  lemma {:induction false} SelectOne(rows: seq<KeyRecord>, w: Where, uid: string)
    requires UniqueKeys(rows) && OnUid(w, uid)
    ensures |Select(rows, w)| <= 1
    ensures forall r :: r in rows && r.uid == uid ==> Select(rows, w) == if Matches(w, r) then [r] else []
    ensures (forall r :: r in rows ==> r.uid != uid) ==> Select(rows, w) == []
  {
    if rows != [] {
      var front, last := rows[..|rows| - 1], rows[|rows| - 1];
      assert rows == front + [last];
      SelectOne(front, w, uid);
      if last.uid == uid {
        assert forall r :: r in front ==> r.uid != uid;
      }
    }
  }

  lemma SelectAgrees(keys: map<string, KeyRecord>, rows: seq<KeyRecord>, w: Where, uid: string)
    requires KeysAgree(keys, rows) && OnUid(w, uid)
    ensures Select(rows, w) == if uid in keys && Matches(w, keys[uid]) then [keys[uid]] else []
  {
    SelectOne(rows, w, uid);
    if uid in keys {
      assert keys[uid] in rows && keys[uid].uid == uid;
    } else {
      forall r | r in rows
        ensures r.uid != uid
      {
        var i :| 0 <= i < |rows| && rows[i] == r;
      }
    }
  }

  lemma UpdateAgrees(keys: map<string, KeyRecord>, rows: seq<KeyRecord>, a: Assignment, w: Where, uid: string)
    requires KeysAgree(keys, rows) && OnUid(w, uid)
    ensures KeysAgree(if uid in keys && Matches(w, keys[uid]) then keys[uid := Assign(a, keys[uid])] else keys, Update(rows, a, w))
  {
    var keys' := if uid in keys && Matches(w, keys[uid]) then keys[uid := Assign(a, keys[uid])] else keys;
    var rows' := Update(rows, a, w);
    forall i | 0 <= i < |rows|
      ensures rows'[i].uid == rows[i].uid && rows'[i].uid in keys' && keys'[rows'[i].uid] == rows'[i]
    {
    }
    forall u | u in keys'
      ensures keys'[u].uid == u && keys'[u] in rows'
    {
      var i :| 0 <= i < |rows| && rows[i] == keys[u];
      assert rows'[i].uid == u;
    }
  }

  lemma InsertAgrees(keys: map<string, KeyRecord>, rows: seq<KeyRecord>, rec: KeyRecord)
    requires KeysAgree(keys, rows) && rec.uid !in keys
    ensures Insert(rows, rec) == Some(rows + [rec]) && KeysAgree(keys[rec.uid := rec], rows + [rec])
  {
    var keys', rows' := keys[rec.uid := rec], rows + [rec];
    assert forall i :: 0 <= i < |rows| ==> rows'[i] == rows[i];
    assert rec in rows';
    forall u | u in keys'
      ensures keys'[u].uid == u && keys'[u] in rows'
    {
      if u != rec.uid {
        assert keys[u] in rows;
      }
    }
  }

  /** A selection lists each matching record once, under its own uid. */
  lemma {:induction false} SelectDistinct(rows: seq<KeyRecord>, w: Where)
    requires UniqueKeys(rows)
    ensures UniqueKeys(Select(rows, w))
  {
    if rows != [] {
      var front, last := rows[..|rows| - 1], rows[|rows| - 1];
      SelectDistinct(front, w);
      var s := Select(front, w);
      forall i | 0 <= i < |s|
        ensures s[i].uid != last.uid
      {
        assert s[i] in front;
      }
    }
  }

  lemma {:induction false} DistinctMultiset<T>(s: seq<T>)
    requires forall i, j :: 0 <= i < j < |s| ==> s[i] != s[j]
    ensures multiset(s) == multiset(set x | x in s)
  {
    if s != [] {
      var front, last := s[..|s| - 1], s[|s| - 1];
      assert s == front + [last];
      DistinctMultiset(front);
      assert (set x | x in s) == (set x | x in front) + {last};
    }
  }

  lemma ListsAgree(st: Store, db: Database)
    requires Agree(st, db)
    ensures multiset(Select(db.keys, NotIn(DESTROYED))) == multiset(LiveRecords(st))
  {
    var s := Select(db.keys, NotIn(DESTROYED));
    SelectDistinct(db.keys, NotIn(DESTROYED));
    DistinctMultiset(s);
    forall r
      ensures r in s <==> r in LiveRecords(st)
    {
      if r in s {
        var i :| 0 <= i < |db.keys| && db.keys[i] == r;
        assert st.keys[r.uid] == r;
      }
    }
    assert (set r | r in s) == LiveRecords(st);
  }

  lemma LocatesAgree(st: Store, db: Database, name: string)
    requires Agree(st, db)
    ensures multiset(UidsOf(Select(db.keys, NameNotIn(name, DESTROYED)))) == multiset(LiveNamed(st, name))
  {
    var w := NameNotIn(name, DESTROYED);
    var s := Select(db.keys, w);
    SelectDistinct(db.keys, w);
    var uids := UidsOf(s);
    DistinctMultiset(uids);
    forall u
      ensures u in uids <==> u in LiveNamed(st, name)
    {
      if u in uids {
        var k :| 0 <= k < |uids| && uids[k] == u;
        assert s[k] in db.keys;
      }
      if u in LiveNamed(st, name) {
        assert st.keys[u] in s;
        var k :| 0 <= k < |s| && s[k] == st.keys[u];
        assert uids[k] == u;
      }
    }
    assert (set u | u in uids) == LiveNamed(st, name);
  }

  lemma {:induction false} RowIsEntry(rows: seq<AttrRow>, k: nat)
    requires k < |rows|
    requires forall i, j :: 0 <= i < j < |rows| ==> rows[i].name != rows[j].name
    ensures rows[k].name in AttrMap(rows) && AttrMap(rows)[rows[k].name] == rows[k].value
  {
    var n := |rows| - 1;
    if k < n {
      assert rows[k].name != rows[n].name;
      RowIsEntry(rows[..n], k);
    }
  }

  lemma {:induction false} EntryHasRow(rows: seq<AttrRow>, name: string) returns (k: nat)
    requires name in AttrMap(rows)
    ensures k < |rows| && rows[k].name == name
  {
    k := |rows| - 1;
    if rows[k].name != name {
      k := EntryHasRow(rows[..k], name);
    }
  }

  lemma {:induction false} SelectAttrsDistinct(rows: seq<AttrRow>, uid: string)
    requires UniqueAttrs(rows)
    ensures forall i, j :: 0 <= i < j < |SelectAttrs(rows, uid)| ==> SelectAttrs(rows, uid)[i].name != SelectAttrs(rows, uid)[j].name
  {
    if rows != [] {
      var front, last := rows[..|rows| - 1], rows[|rows| - 1];
      SelectAttrsDistinct(front, uid);
      var s := SelectAttrs(front, uid);
      forall i | 0 <= i < |s| && last.uid == uid
        ensures s[i].name != last.name
      {
        assert s[i] in front;
      }
    }
  }

  lemma AttrReadsAgree(st: Store, db: Database, uid: string)
    requires Agree(st, db)
    ensures AttrMap(SelectAttrs(db.attributes, uid)) == AttrsOf(st, uid)
  {
    var s := SelectAttrs(db.attributes, uid);
    SelectAttrsDistinct(db.attributes, uid);
    var m, want := AttrMap(s), AttrsOf(st, uid);
    forall n | n in m
      ensures n in want && want[n] == m[n]
    {
      var k := EntryHasRow(s, n);
      RowIsEntry(s, k);
      assert s[k] == AttrRow(uid, n, m[n]);
    }
    forall n | n in want
      ensures n in m
    {
      var k :| 0 <= k < |s| && s[k] == AttrRow(uid, n, want[n]);
      RowIsEntry(s, k);
    }
  }

  lemma UpsertAgrees(attrs: map<string, map<string, string>>, rows: seq<AttrRow>, uid: string, name: string, value: string)
    requires AttrsAgree(attrs, rows)
    ensures AttrsAgree(attrs[uid := (if uid in attrs then attrs[uid] else map[])[name := value]], Upsert(rows, AttrRow(uid, name, value)))
  {
    var row := AttrRow(uid, name, value);
    var rows' := Upsert(rows, row);
    if k :| 0 <= k < |rows| && rows[k].uid == uid && rows[k].name == name {
      assert rows'[k] == row;
      forall r
        ensures r in rows' <==> r == row || (r in rows && !(r.uid == uid && r.name == name))
      {
        if r in rows && !(r.uid == uid && r.name == name) {
          var i :| 0 <= i < |rows| && rows[i] == r;
          assert rows'[i] == r;
        }
      }
    } else {
      assert rows' == rows + [row];
      assert forall r :: r in rows' <==> r == row || r in rows;
      forall r | r in rows
        ensures !(r.uid == uid && r.name == name)
      {
      }
    }
  }

  lemma {:induction false} DeleteDistinct(rows: seq<AttrRow>, uid: string, name: string)
    requires UniqueAttrs(rows)
    ensures UniqueAttrs(DeleteAttr(rows, uid, name))
  {
    if rows != [] {
      var front, last := rows[..|rows| - 1], rows[|rows| - 1];
      DeleteDistinct(front, uid, name);
      var s := DeleteAttr(front, uid, name);
      forall i | 0 <= i < |s|
        ensures s[i].uid != last.uid || s[i].name != last.name
      {
        assert s[i] in front;
      }
    }
  }

  lemma DeleteAgrees(st: Store, db: Database, uid: string, name: string)
    requires Agree(st, db)
    ensures AttrsAgree(MemDeleteAttr(st, uid, name).attrs, DeleteAttr(db.attributes, uid, name))
  {
    DeleteDistinct(db.attributes, uid, name);
  }

  lemma GetsAgree(st: Store, db: Database, uid: string)
    requires Agree(st, db)
    ensures SqlGet(db, uid) == MemGet(st, uid)
  {
    SelectAgrees(st.keys, db.keys, UidNotIn(uid, DESTROYED), uid);
  }

  /** Calls that create a record use a uid not seen before. */
  predicate FreshUid(st: Store, e: Env) {
    e.uid !in st.keys
  }

  lemma UpdateSimulated(st: Store, db: Database, a: Assignment, w: Where, uid: string)
    requires Agree(st, db) && OnUid(w, uid)
    ensures var hit := uid in st.keys && Matches(w, st.keys[uid]);
      && Agree(if hit then st.(keys := st.keys[uid := Assign(a, st.keys[uid])]) else st, SqlUpdate(db, a, w).0)
      && SqlUpdate(db, a, w).1 == if hit then Done else Failed
  {
    UpdateAgrees(st.keys, db.keys, a, w, uid);
    SelectAgrees(st.keys, db.keys, w, uid);
  }

  ghost predicate Same(m: (Store, Reply), s: (Database, Reply)) {
    m.1 == s.1 && Agree(m.0, s.0)
  }

  lemma CreateSimulated(st: Store, db: Database, name: string, algorithm: int, length: int, usageMask: int, owner: string, e: Env)
    requires Agree(st, db) && FreshUid(st, e)
    ensures Same(MemCreate(st, name, algorithm, length, usageMask, owner, e), SqlCreate(db, name, algorithm, length, usageMask, owner, e))
  {
    if ValidLength(length) && e.entropy.Some? {
      InsertAgrees(st.keys, db.keys, NewRecord(name, algorithm, length, usageMask, owner, RandomBytes(e.entropy.value, length / 8), e));
    }
  }

  lemma RegisterSimulated(st: Store, db: Database, rec: KeyRecord, e: Env)
    requires Agree(st, db) && FreshUid(st, e)
    ensures Same(MemRegister(st, rec, e), SqlRegister(db, rec, e))
  {
    InsertAgrees(st.keys, db.keys, Registered(rec, e));
  }

  lemma DeriveSimulated(su: Suite, st: Store, db: Database, source: string, data: bytes, name: string, length: int, e: Env)
    requires Agree(st, db) && FreshUid(st, e)
    ensures Same(MemDerive(su, st, source, data, name, length, e), SqlDerive(su, db, source, data, name, length, e))
  {
    GetsAgree(st, db, source);
    if Live(st, source) && Derived(su, st.keys[source], data, name, length, e).Some? {
      InsertAgrees(st.keys, db.keys, Derived(su, st.keys[source], data, name, length, e).value);
    }
  }

  lemma SetStateSimulated(st: Store, db: Database, uid: string, state: KeyState)
    requires Agree(st, db)
    ensures Same(MemSetState(st, uid, state), SqlUpdate(db, SetState(state), UidNotIn(uid, DESTROYED)))
  {
    UpdateSimulated(st, db, SetState(state), UidNotIn(uid, DESTROYED), uid);
  }

  lemma DestroySimulated(st: Store, db: Database, uid: string)
    requires Agree(st, db)
    ensures Same(MemDestroy(st, uid), SqlUpdate(db, SetStateMaterial(DESTROYED, []), UidNotIn(uid, DESTROYED)))
  {
    UpdateSimulated(st, db, SetStateMaterial(DESTROYED, []), UidNotIn(uid, DESTROYED), uid);
  }

  lemma RevokeSimulated(st: Store, db: Database, uid: string, reason: int)
    requires Agree(st, db)
    ensures Same(MemRevoke(st, uid, reason), SqlUpdate(db, SetStateReason(COMPROMISED, reason), UidNotIn(uid, DESTROYED)))
  {
    UpdateSimulated(st, db, SetStateReason(COMPROMISED, reason), UidNotIn(uid, DESTROYED), uid);
  }

  lemma RecoverSimulated(st: Store, db: Database, uid: string)
    requires Agree(st, db)
    ensures Same(MemRecover(st, uid), SqlUpdate(db, SetState(PRE_ACTIVE), UidIn(uid, ARCHIVED)))
  {
    UpdateSimulated(st, db, SetState(PRE_ACTIVE), UidIn(uid, ARCHIVED), uid);
  }

  lemma RekeySimulated(st: Store, db: Database, uid: string, e: Env)
    requires Agree(st, db)
    ensures Same(MemRekey(st, uid, e), SqlRekey(db, uid, e))
  {
    GetsAgree(st, db, uid);
    if RekeyRead(db, uid, e).Some? {
      var rec := RekeyRead(db, uid, e).value;
      UpdateSimulated(st, db, SetMaterialVersion(rec.material, rec.version), UidNotIn(uid, DESTROYED), uid);
    }
  }

  /** A call on agreeing stores that changes nothing: equal replies. */
  lemma ReadSimulated(su: Suite, st: Store, db: Database, c: Call, e: Env)
    requires Agree(st, db) && (c.Get? || c.GetAttributes? || c.Locate? || c.List? || c.GetCustomAttributes?)
    ensures Same(MemStep(su, st, c, e), SqlStep(su, db, c, e))
  {
    match c
    case Get(uid) => GetsAgree(st, db, uid);
    case GetAttributes(uid) => GetsAgree(st, db, uid);
    case Locate(name) => LocatesAgree(st, db, name);
    case List => ListsAgree(st, db);
    case GetCustomAttributes(uid) =>
      GetsAgree(st, db, uid);
      AttrReadsAgree(st, db, uid);
  }

  /** A write of attributes on agreeing stores. */
  lemma AttrWriteSimulated(su: Suite, st: Store, db: Database, c: Call, e: Env)
    requires Agree(st, db) && (c.SetCustomAttribute? || c.DeleteCustomAttribute?)
    ensures Same(MemStep(su, st, c, e), SqlStep(su, db, c, e))
  {
    GetsAgree(st, db, c.uid);
    match c
    case SetCustomAttribute(uid, name, value) => UpsertAgrees(st.attrs, db.attributes, uid, name, value);
    case DeleteCustomAttribute(uid, name) => DeleteAgrees(st, db, uid, name);
  }

  /** One call on agreeing stores: equal replies, agreeing stores. */
  lemma StepSimulated(su: Suite, st: Store, db: Database, c: Call, e: Env)
    requires Agree(st, db) && FreshUid(st, e)
    ensures Same(MemStep(su, st, c, e), SqlStep(su, db, c, e))
  {
    match c
    case Create(name, algorithm, length, usageMask, owner) => CreateSimulated(st, db, name, algorithm, length, usageMask, owner, e);
    case Register(rec) => RegisterSimulated(st, db, rec, e);
    case DeriveKey(source, data, name, length) => DeriveSimulated(su, st, db, source, data, name, length, e);
    case Activate(uid) => SetStateSimulated(st, db, uid, ACTIVE);
    case Archive(uid) => SetStateSimulated(st, db, uid, ARCHIVED);
    case Destroy(uid) => DestroySimulated(st, db, uid);
    case Revoke(uid, reason) => RevokeSimulated(st, db, uid, reason);
    case Recover(uid) => RecoverSimulated(st, db, uid);
    case Rekey(uid) => RekeySimulated(st, db, uid, e);
    case SetCustomAttribute(_, _, _) => AttrWriteSimulated(su, st, db, c, e);
    case DeleteCustomAttribute(_, _) => AttrWriteSimulated(su, st, db, c, e);
    case _ => ReadSimulated(su, st, db, c, e);
  }

  datatype Request = Request(call: Call, env: Env)

  ghost function MemRun(su: Suite, st: Store, reqs: seq<Request>): (r: (Store, seq<Reply>))
    ensures |r.1| == |reqs|
  {
    if reqs == [] then (st, [])
    else
      var (st', replies) := MemRun(su, st, reqs[..|reqs| - 1]);
      var (st'', reply) := MemStep(su, st', reqs[|reqs| - 1].call, reqs[|reqs| - 1].env);
      (st'', replies + [reply])
  }

  ghost function SqlRun(su: Suite, db: Database, reqs: seq<Request>): (r: (Database, seq<Reply>))
    ensures |r.1| == |reqs|
  {
    if reqs == [] then (db, [])
    else
      var (db', replies) := SqlRun(su, db, reqs[..|reqs| - 1]);
      var (db'', reply) := SqlStep(su, db', reqs[|reqs| - 1].call, reqs[|reqs| - 1].env);
      (db'', replies + [reply])
  }

  /** No generated uid occurs twice in the stream. */
  ghost predicate DistinctUids(reqs: seq<Request>) {
    forall i, j :: 0 <= i < j < |reqs| ==> reqs[i].env.uid != reqs[j].env.uid
  }

  /** The only uids a run adds are the generated ones. */
  lemma {:induction false} RunUids(su: Suite, st: Store, reqs: seq<Request>)
    ensures forall u :: u in MemRun(su, st, reqs).0.keys ==> u in st.keys || exists i :: 0 <= i < |reqs| && reqs[i].env.uid == u
  {
    if reqs != [] {
      var front, last := reqs[..|reqs| - 1], reqs[|reqs| - 1];
      RunUids(su, st, front);
      var mid := MemRun(su, st, front).0;
      var end := MemRun(su, st, reqs).0;
      forall u | u in end.keys
        ensures u in st.keys || exists i :: 0 <= i < |reqs| && reqs[i].env.uid == u
      {
        assert u in mid.keys || u == last.env.uid;
        if u in mid.keys && u !in st.keys {
          var i :| 0 <= i < |front| && front[i].env.uid == u;
          assert reqs[i].env.uid == u;
        }
      }
    }
  }

  /** The backends agree on every sequence of calls: same replies, agreeing contents. */
  lemma {:induction false} BackendsAgree(su: Suite, reqs: seq<Request>)
    requires DistinctUids(reqs)
    ensures MemRun(su, EMPTY_STORE, reqs).1 == SqlRun(su, EMPTY_DATABASE, reqs).1
    ensures Agree(MemRun(su, EMPTY_STORE, reqs).0, SqlRun(su, EMPTY_DATABASE, reqs).0)
  {
    if reqs != [] {
      var front, last := reqs[..|reqs| - 1], reqs[|reqs| - 1];
      BackendsAgree(su, front);
      RunUids(su, EMPTY_STORE, front);
      var st, db := MemRun(su, EMPTY_STORE, front).0, SqlRun(su, EMPTY_DATABASE, front).0;
      StepSimulated(su, st, db, last.call, last.env);
    }
  }
}
