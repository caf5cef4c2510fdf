/** Key material and version numbers over every sequence of storage calls. */
module Material {
  import opened KeyTypes
  import opened StoreModel
  import opened SqlModel
  import opened Backends

  predicate Creates(c: Call) {
    c.Create? || c.Register? || c.DeriveKey?
  }

  /** Request `i` brought the key into being. */
  predicate Born(reqs: seq<Request>, replies: seq<Reply>, uid: string, i: nat)
    requires |replies| == |reqs|
  {
    i < |reqs| && Creates(reqs[i].call) && reqs[i].env.uid == uid && replies[i].Found?
  }

  /** Successful rekeys of the key so far. */
  function Rekeys(reqs: seq<Request>, replies: seq<Reply>, uid: string): nat
    requires |replies| == |reqs|
  {
    if reqs == [] then 0
    else
      var n := |reqs| - 1;
      Rekeys(reqs[..n], replies[..n], uid) + if reqs[n].call == Rekey(uid) && replies[n].Found? then 1 else 0
  }

  function BirthVersion(c: Call): int {
    if c.Register? && c.rec.version != 0 then c.rec.version else 1
  }

  function BirthLength(c: Call): int
    requires Creates(c)
  {
    match c
    case Create(_, _, length, _, _) => length
    case Register(rec) => rec.length
    case DeriveKey(_, _, _, length) => length
  }

  /** Bytes of material the creating call gives the key. */
  function BirthBytes(c: Call): nat
    requires Creates(c)
    requires c.Create? ==> c.length > 0
  {
    match c
    case Create(_, _, length, _, _) => length / 8
    case Register(rec) => |rec.material|
    case DeriveKey(_, _, _, length) => DerivedBytes(length)
  }

  /** What is known of a record created by `c` and rekeyed `n` times. */
  ghost predicate WellFormed(rec: KeyRecord, c: Call, n: nat)
    requires Creates(c)
  {
    && rec.version == BirthVersion(c) + n
    && rec.length == BirthLength(c)
    && (c.Create? ==> ValidLength(c.length))
    && (c.DeriveKey? ==> 1 <= BirthBytes(c) <= MAX_DERIVED_KEY_BYTES)
    && (n > 0 ==> ValidLength(rec.length))
    && (if rec.state == DESTROYED then rec.material == []
        else |rec.material| == if n == 0 then BirthBytes(c) else rec.length / 8)
  }

  lemma BirthWellFormed(su: Suite, st: Store, c: Call, e: Env)
    requires Lawful(su) && Creates(c) && MemStep(su, st, c, e).1.Found?
    ensures var st' := MemStep(su, st, c, e).0; e.uid in st'.keys && WellFormed(st'.keys[e.uid], c, 0)
  {
  }

  lemma StepWellFormed(su: Suite, st: Store, c: Call, e: Env, uid: string, birth: Call, n: nat)
    requires uid in st.keys && e.uid != uid
    requires Creates(birth) && WellFormed(st.keys[uid], birth, n)
    ensures var (st', r) := MemStep(su, st, c, e);
      uid in st'.keys && WellFormed(st'.keys[uid], birth, if c == Rekey(uid) && r.Found? then n + 1 else n)
  {
  }

  /** At every point after its birth: the version counts the rekeys, a created or
      rekeyed key holds Length/8 bytes, a derived key what HKDF was asked for, and a
      destroyed key nothing. */
  lemma {:induction false} MaterialInvariant(su: Suite, reqs: seq<Request>, uid: string, i: nat)
    requires Lawful(su) && DistinctUids(reqs)
    requires Born(reqs, MemRun(su, EMPTY_STORE, reqs).1, uid, i)
    ensures var (st, replies) := MemRun(su, EMPTY_STORE, reqs);
      uid in st.keys && WellFormed(st.keys[uid], reqs[i].call, Rekeys(reqs, replies, uid))
  {
    var n := |reqs| - 1;
    var front, last := reqs[..n], reqs[n];
    var (mid, replies) := MemRun(su, EMPTY_STORE, front);
    assert MemRun(su, EMPTY_STORE, reqs).1[..n] == replies;
    if i < n {
      MaterialInvariant(su, front, uid, i);
      StepWellFormed(su, mid, last.call, last.env, uid, reqs[i].call, Rekeys(front, replies, uid));
    } else {
      BirthWellFormed(su, mid, last.call, last.env);
      NotRekeyedBeforeBirth(su, front, uid);
    }
  }

  /** A call that generates another uid leaves the key absent and cannot rekey it. */
  lemma StaysAbsent(su: Suite, st: Store, c: Call, e: Env, uid: string)
    requires uid !in st.keys && e.uid != uid
    ensures uid !in MemStep(su, st, c, e).0.keys
    ensures c == Rekey(uid) ==> MemStep(su, st, c, e).1.Failed?
  {
  }

  /** A key that was never created has no successful rekeys. */
  lemma {:induction false} NotRekeyedBeforeBirth(su: Suite, reqs: seq<Request>, uid: string)
    requires forall i :: 0 <= i < |reqs| ==> reqs[i].env.uid != uid
    ensures uid !in MemRun(su, EMPTY_STORE, reqs).0.keys
    ensures Rekeys(reqs, MemRun(su, EMPTY_STORE, reqs).1, uid) == 0
  {
    if reqs != [] {
      var n := |reqs| - 1;
      NotRekeyedBeforeBirth(su, reqs[..n], uid);
      StaysAbsent(su, MemRun(su, EMPTY_STORE, reqs[..n]).0, reqs[n].call, reqs[n].env, uid);
      assert MemRun(su, EMPTY_STORE, reqs).1[..n] == MemRun(su, EMPTY_STORE, reqs[..n]).1;
    }
  }

  /** The same for the row of the key in the SQL table. */
  lemma MaterialInvariantOnSqlite(su: Suite, reqs: seq<Request>, uid: string, i: nat)
    requires Lawful(su) && DistinctUids(reqs)
    requires Born(reqs, SqlRun(su, EMPTY_DATABASE, reqs).1, uid, i)
    ensures var (db, replies) := SqlRun(su, EMPTY_DATABASE, reqs);
      exists r :: r in db.keys && r.uid == uid && WellFormed(r, reqs[i].call, Rekeys(reqs, replies, uid))
  {
    BackendsAgree(su, reqs);
    MaterialInvariant(su, reqs, uid, i);
    assert MemRun(su, EMPTY_STORE, reqs).0.keys[uid] in SqlRun(su, EMPTY_DATABASE, reqs).0.keys;
  }

  /** A created key is at most 4096 bytes, and no derivation reaches the HKDF limit. */
  lemma MaterialBounds(rec: KeyRecord, c: Call, n: nat)
    requires Creates(c) && WellFormed(rec, c, n)
    ensures c.Create? ==> |rec.material| <= 4096
    ensures c.Create? && rec.state != DESTROYED ==> |rec.material| == c.length / 8
    ensures c.DeriveKey? && n == 0 && rec.state != DESTROYED ==>
      |rec.material| == (if c.length >= 8 then c.length / 8 else 32) && 1 <= |rec.material| <= 512 < 8160 == HKDF_LIMIT
  {
  }
}
