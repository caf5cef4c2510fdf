/** What each storage call does on either store, in the numbers of the state codes and
    limits, without the functions that compute it. */
module Calls {
  import opened KeyTypes
  import opened StoreModel
  import opened SqlModel
  import opened Backends

  /** The key is there and not Destroyed (5). */
  predicate There(st: Store, uid: string) {
    uid in st.keys && st.keys[uid].state != 5
  }

  /** The call is refused: a key that is not there, a length outside its limits, a
      random source that fails, a key to recover that is not Archived (100). */
  predicate Refused(st: Store, c: Call, e: Env) {
    match c
    case Create(_, _, length, _, _) => !(1 <= length <= 32768) || e.entropy.None?
    case Get(uid) => !There(st, uid)
    case Locate(_) => false
    case List => false
    case Activate(uid) => !There(st, uid)
    case Destroy(uid) => !There(st, uid)
    case Register(rec) => rec.objectType != 1 && rec.length < 0
    case Revoke(uid, _) => !There(st, uid)
    case GetAttributes(uid) => !There(st, uid)
    case Rekey(uid) => !There(st, uid) || !(1 <= st.keys[uid].length <= 32768) || e.entropy.None?
    case Archive(uid) => !There(st, uid)
    case Recover(uid) => !(uid in st.keys && st.keys[uid].state == 100)
    case DeriveKey(source, _, _, length) => !There(st, source) || length / 8 > 512
    case GetCustomAttributes(uid) => !There(st, uid)
    case SetCustomAttribute(uid, _, _) => !There(st, uid)
    case DeleteCustomAttribute(uid, _) => !There(st, uid)
  }

  /** A new key: type and owner as given, PreActive (1). */
  predicate NewKey(r: KeyRecord, e: Env, name: string, objectType: int, algorithm: int, length: int, usageMask: int, owner: string) {
    && r.uid == e.uid && r.name == name && r.objectType == objectType && r.algorithm == algorithm && r.length == length
    && r.usageMask == usageMask && r.owner == owner && r.createdAt == e.now && r.state == 1
  }

  /** The keys after a call that is not refused. */
  ghost predicate Done(su: Suite, st: Store, c: Call, e: Env, keys: map<string, KeyRecord>)
    requires !Refused(st, c, e)
  {
    match c
    case Create(name, algorithm, length, usageMask, owner) =>
      && e.uid in keys && keys == st.keys[e.uid := keys[e.uid]] && keys[e.uid].version == 1 && keys[e.uid].revocationReason == 0
      && NewKey(keys[e.uid], e, name, 2, algorithm, length, usageMask, owner) && Drawn(keys[e.uid].material, e.entropy, length / 8)
    case Register(rec) =>
      && e.uid in keys && keys == st.keys[e.uid := keys[e.uid]] && keys[e.uid].material == rec.material
      && keys[e.uid].version == (if rec.version == 0 then 1 else rec.version) && keys[e.uid].revocationReason == rec.revocationReason
      && NewKey(keys[e.uid], e, rec.name, rec.objectType, rec.algorithm, rec.length, rec.usageMask, rec.owner)
    case DeriveKey(source, data, name, length) =>
      var src := st.keys[source];
      && e.uid in keys && keys == st.keys[e.uid := keys[e.uid]] && keys[e.uid].version == 1 && keys[e.uid].revocationReason == 0
      && NewKey(keys[e.uid], e, name, 2, src.algorithm, length, src.usageMask, src.owner)
      && keys[e.uid].material == su.hkdf(src.material, data, if length >= 8 then length / 8 else 32)
    case Activate(uid) => keys == st.keys[uid := st.keys[uid].(state := 2)]
    case Destroy(uid) => keys == st.keys[uid := st.keys[uid].(state := 5, material := [])]
    case Revoke(uid, reason) => keys == st.keys[uid := st.keys[uid].(state := 4, revocationReason := reason)]
    case Archive(uid) => keys == st.keys[uid := st.keys[uid].(state := 100)]
    case Recover(uid) => keys == st.keys[uid := st.keys[uid].(state := 1)]
    case Rekey(uid) =>
      && uid in keys && Drawn(keys[uid].material, e.entropy, st.keys[uid].length / 8)
      && keys == st.keys[uid := st.keys[uid].(material := keys[uid].material, version := st.keys[uid].version + 1)]
    case _ => keys == st.keys
  }

  /** The reply to a call that is not refused, given the keys it left. */
  ghost predicate Replied(st: Store, c: Call, e: Env, keys: map<string, KeyRecord>, r: Reply)
    requires !Refused(st, c, e)
  {
    match c
    case Create(_, _, _, _, _) => e.uid in keys && r == Found(keys[e.uid])
    case Register(_) => e.uid in keys && r == Found(keys[e.uid])
    case DeriveKey(_, _, _, _) => e.uid in keys && r == Found(keys[e.uid])
    case Get(uid) => r == Found(st.keys[uid])
    case GetAttributes(uid) => r == Found(st.keys[uid])
    case Rekey(uid) => uid in keys && r == Found(keys[uid])
    case Locate(name) => r.Uids? && forall u :: r.uids[u] == if There(st, u) && st.keys[u].name == name then 1 else 0
    case List =>
      && r.Records?
      && (forall u :: There(st, u) ==> r.recs[st.keys[u]] == 1)
      && (forall q :: q in r.recs ==> exists u :: There(st, u) && st.keys[u] == q)
    case GetCustomAttributes(uid) => r == Attributes(if uid in st.attrs then st.attrs[uid] else map[])
    case _ => r == Reply.Done
  }

  lemma MemCallInNumbers(su: Suite, st: Store, c: Call, e: Env)
    ensures var (st', r) := MemStep(su, st, c, e);
      && (r.Failed? <==> Refused(st, c, e))
      && (if r.Failed? then st'.keys == st.keys else Done(su, st, c, e, st'.keys) && Replied(st, c, e, st'.keys, r))
  {
    if c.List? {
      assert forall u :: There(st, u) ==> st.keys[u] in LiveRecords(st);
    }
  }

  /** On agreeing stores a call fails on both exactly when it is refused, and otherwise
      leaves on both the keys it is meant to leave. */
  lemma CallInNumbers(su: Suite, st: Store, db: Database, c: Call, e: Env)
    requires Agree(st, db) && e.uid !in st.keys
    ensures var (st', r) := MemStep(su, st, c, e);
      var (db', q) := SqlStep(su, db, c, e);
      && (r.Failed? <==> Refused(st, c, e)) && (q.Failed? <==> Refused(st, c, e))
      && (if r.Failed? then st'.keys == st.keys else Done(su, st, c, e, st'.keys) && Replied(st, c, e, st'.keys, r))
      && q == r && KeysAgree(st'.keys, db'.keys)
  {
    MemCallInNumbers(su, st, c, e);
    StepSimulated(su, st, db, c, e);
  }
}
