/** The in-memory backend on the heap: shared mutable records with their own
    material arrays, refined to the value-level `StoreModel`. */
module MemoryBackend {
  import opened KeyTypes
  import opened StoreModel

  /** A key record as the store holds it: mutable, with its material in an array. */
  class Record {
    var uid: string
    var name: string
    var objectType: int
    var algorithm: int
    var length: int
    var material: array?<byte>
    var usageMask: int
    var state: KeyState
    var revocationReason: int
    var owner: string
    var createdAt: int
    var version: int

    constructor (rec: KeyRecord)
      ensures Snapshot() == rec
      ensures material != null && fresh(material)
    {
      uid, name, objectType, algorithm, length := rec.uid, rec.name, rec.objectType, rec.algorithm, rec.length;
      usageMask, state, revocationReason := rec.usageMask, rec.state, rec.revocationReason;
      owner, createdAt, version := rec.owner, rec.createdAt, rec.version;
      var buffer := new byte[|rec.material|](i requires 0 <= i < |rec.material| => rec.material[i]);
      material := buffer;
      new;
      assert material[..] == rec.material;
    }

    /** Whatever state the caller gave it, a registered record starts PreActive. */
    method Stamp(e: Env)
      modifies this
      ensures Snapshot() == Registered(old(Snapshot()), e) && material == old(material)
    {
      uid := e.uid;
      createdAt := e.now;
      state := PRE_ACTIVE;
      if version == 0 {
        version := 1;
      }
    }

    function Snapshot(): KeyRecord
      reads this, material
    {
      KeyRecord(uid, name, objectType, algorithm, length, if material == null then [] else material[..],
                usageMask, state, revocationReason, owner, createdAt, version)
    }
  }

  ghost function Buffer(material: array?<byte>): set<object> {
    if material == null then {} else {material}
  }

  class MemoryStore {
    var keys: map<string, Record>
    var attrs: map<string, map<string, string>>

    ghost var Repr: set<object>
    /** The store as a value. */
    ghost var View: Store

    /** Every record sits under its own uid, so no record is stored twice; no two
        records share a material array; and the value of the store is `View`. */
    ghost predicate Valid()
      reads this, Repr
    {
      && this in Repr
      && View.keys.Keys == keys.Keys && View.attrs == attrs
      && (forall u :: u in keys ==> RecordValid(u))
      && Unshared()
    }

    ghost predicate Unshared()
      requires forall u :: u in keys ==> keys[u] in Repr
      reads this, Repr
    {
      forall u, v :: u in keys && v in keys && u != v && keys[u].material != null
        ==> keys[u].material != keys[v].material
    }

    ghost predicate RecordValid(u: string)
      requires u in keys && u in View.keys
      reads this, Repr
    {
      && keys[u] in Repr
      && (keys[u].material != null ==> keys[u].material in Repr)
      && keys[u].uid == u
      && keys[u].Snapshot() == View.keys[u]
    }

    /** A record whose object and array were left alone is as valid as before. */
    twostate lemma RecordKept(u: string)
      requires old(Valid()) && u in old(keys) && keys == old(keys) && old(Repr) <= Repr
      requires unchanged(keys[u]) && (old(keys[u].material) != null ==> unchanged(old(keys[u].material)))
      requires u in View.keys && View.keys[u] == old(View.keys[u])
      ensures RecordValid(u)
    {
      assert old(RecordValid(u));
    }

    /** Changing one record, and at most its own array, keeps the store valid. */
    twostate lemma Revalidate(uid: string)
      requires old(Valid()) && uid in old(keys) && keys == old(keys) && attrs == old(attrs) && old(Repr) <= Repr
      requires forall o: object :: o in old(Repr) && o != this && o != keys[uid] && o != old(keys[uid].material) ==> unchanged(o)
      requires keys[uid].uid == uid
      requires
        || keys[uid].material == null
        || keys[uid].material == old(keys[uid].material)
        || (fresh(keys[uid].material) && keys[uid].material in Repr)
      requires View == old(View).(keys := old(View).keys[uid := keys[uid].Snapshot()])
      ensures Valid()
    {
      assert old(RecordValid(uid));
      forall u | u in keys
        ensures RecordValid(u)
        ensures u != uid ==> keys[u].material == old(keys[u].material)
      {
        if u != uid {
          assert old(RecordValid(u));
          RecordKept(u);
        }
      }
      UnsharedKept(uid);
    }

    twostate lemma UnsharedKept(uid: string)
      requires old(Valid()) && uid in old(keys) && keys == old(keys) && old(Repr) <= Repr
      requires forall u :: u in keys ==> keys[u] in Repr
      requires forall u :: u in keys && u != uid ==> keys[u].material == old(keys[u].material)
      requires
        || keys[uid].material == null
        || keys[uid].material == old(keys[uid].material)
        || (fresh(keys[uid].material) && keys[uid].material in Repr)
      ensures Unshared()
    {
      assert forall u :: u in keys ==> old(RecordValid(u));
    }

    /** Changing attributes only keeps the store valid. */
    twostate lemma RevalidateAttrs()
      requires old(Valid()) && keys == old(keys) && Repr == old(Repr)
      requires forall o: object :: o in Repr && o != this ==> unchanged(o)
      requires View == old(View).(attrs := attrs)
      ensures Valid()
    {
      forall u | u in keys
        ensures keys[u].material == old(keys[u].material) && RecordValid(u)
      {
        assert old(RecordValid(u));
        RecordKept(u);
      }
    }

    constructor ()
      ensures Valid() && fresh(Repr) && View == EMPTY_STORE
    {
      keys, attrs := map[], map[];
      Repr, View := {this}, EMPTY_STORE;
    }

    /** Stores a record that shares nothing with the store. */
    method Insert(rec: Record)
      requires Valid() && rec !in Repr && (rec.material != null ==> rec.material !in Repr)
      modifies this
      ensures Valid() && Repr == old(Repr) + {rec} + Buffer(rec.material)
      ensures View == Put(old(View), rec.Snapshot())
    {
      keys := keys[rec.uid := rec];
      Repr := Repr + {rec} + Buffer(rec.material);
      View := Put(View, rec.Snapshot());
      forall u | u in keys
        ensures RecordValid(u)
      {
        if u != rec.uid {
          assert old(RecordValid(u));
        }
      }
    }

    /** Stores a newly allocated record. */
    method Add(value: KeyRecord)
      requires Valid()
      modifies this
      ensures Valid() && fresh(Repr - old(Repr)) && View == Put(old(View), value)
    {
      var rec := new Record(value);
      Insert(rec);
    }

    method Create(name: string, algorithm: int, length: int, usageMask: int, owner: string, e: Env) returns (r: Reply)
      requires Valid()
      modifies Repr
      ensures Valid() && fresh(Repr - old(Repr))
      ensures (View, r) == MemCreate(old(View), name, algorithm, length, usageMask, owner, e)
    {
      if length <= 0 || length > MAX_KEY_LENGTH_BITS {
        return Failed;
      }
      if e.entropy.None? {
        return Failed;
      }
      var value := NewRecord(name, algorithm, length, usageMask, owner, RandomBytes(e.entropy.value, length / 8), e);
      Add(value);
      r := Found(value);
    }

    method Get(uid: string) returns (r: Reply)
      requires Valid()
      ensures r == MemGet(View, uid)
      ensures r.Found? ==> uid in keys
    {
      if uid !in keys || keys[uid].state == DESTROYED {
        return Failed;
      }
      r := Found(keys[uid].Snapshot());
    }

    /** The keys are visited in no particular order. */
    method Locate(name: string) returns (uids: seq<string>)
      requires Valid()
      ensures multiset(uids) == multiset(LiveNamed(View, name))
    {
      uids := [];
      var rest := keys.Keys;
      ghost var hits: set<string> := {};
      while rest != {}
        invariant rest <= keys.Keys && hits <= keys.Keys - rest
        invariant forall u :: u in keys && u !in rest ==> (u in hits <==> keys[u].name == name && keys[u].state != DESTROYED)
        invariant multiset(uids) == multiset(hits)
        decreases |rest|
      {
        var u :| u in rest;
        rest := rest - {u};
        var rec := keys[u];
        if rec.name == name && rec.state != DESTROYED {
          uids := uids + [rec.uid];
          hits := hits + {u};
        }
      }
      assert hits == LiveNamed(View, name);
    }

    method List() returns (recs: seq<KeyRecord>)
      requires Valid()
      ensures multiset(recs) == multiset(LiveRecords(View))
    {
      recs := [];
      var rest := keys.Keys;
      ghost var hits: set<KeyRecord> := {};
      while rest != {}
        invariant rest <= keys.Keys
        invariant forall u :: u in rest ==> keys[u].Snapshot() !in hits
        invariant forall u :: u in keys && u !in rest ==> (keys[u].Snapshot() in hits <==> keys[u].state != DESTROYED)
        invariant hits <= LiveRecords(View)
        invariant multiset(recs) == multiset(hits)
        decreases |rest|
      {
        var u :| u in rest;
        rest := rest - {u};
        var rec := keys[u];
        if rec.state != DESTROYED {
          assert View.keys[u] == rec.Snapshot();
          recs := recs + [rec.Snapshot()];
          hits := hits + {rec.Snapshot()};
        }
      }
      assert hits == LiveRecords(View);
    }

    method Activate(uid: string) returns (r: Reply)
      requires Valid()
      modifies Repr
      ensures Valid() && fresh(Repr - old(Repr))
      ensures (View, r) == MemSetState(old(View), uid, ACTIVE)
    {
      if uid !in keys || keys[uid].state == DESTROYED {
        return Failed;
      }
      keys[uid].state := ACTIVE;
      View := MemSetState(View, uid, ACTIVE).0;
      Revalidate(uid);
      r := Done;
    }

    /** Overwrites the stored bytes in place before dropping them. */
    method Destroy(uid: string) returns (r: Reply)
      requires Valid()
      modifies Repr
      ensures Valid() && fresh(Repr - old(Repr))
      ensures (View, r) == MemDestroy(old(View), uid)
      ensures r.Done? && old(keys[uid].material) != null ==>
        forall i :: 0 <= i < old(keys[uid].material).Length ==> old(keys[uid].material)[i] == 0
    {
      if uid !in keys || keys[uid].state == DESTROYED {
        return Failed;
      }
      var rec := keys[uid];
      if rec.material != null {
        Zeroize(rec.material);
      }
      rec.material := null;
      rec.state := DESTROYED;
      View := MemDestroy(View, uid).0;
      Revalidate(uid);
      r := Done;
    }

    /** Takes over the caller's record, which must be fresh to the store. */
    method Register(rec: Record, e: Env) returns (r: Reply)
      requires Valid() && rec !in Repr && (rec.material != null ==> rec.material !in Repr)
      modifies Repr, rec
      ensures Valid() && rec.material == old(rec.material) && Repr <= old(Repr) + {rec} + Buffer(rec.material)
      ensures (View, r) == MemRegister(old(View), old(rec.Snapshot()), e)
    {
      if rec.objectType != CERTIFICATE && rec.length < 0 {
        return Failed;
      }
      rec.Stamp(e);
      Insert(rec);
      r := Found(rec.Snapshot());
    }

    method Revoke(uid: string, reason: int) returns (r: Reply)
      requires Valid()
      modifies Repr
      ensures Valid() && fresh(Repr - old(Repr))
      ensures (View, r) == MemRevoke(old(View), uid, reason)
    {
      if uid !in keys || keys[uid].state == DESTROYED {
        return Failed;
      }
      keys[uid].state := COMPROMISED;
      keys[uid].revocationReason := reason;
      View := MemRevoke(View, uid, reason).0;
      Revalidate(uid);
      r := Done;
    }

    /** Gives the record a new array; the old bytes are dropped, not overwritten. */
    method Rekey(uid: string, e: Env) returns (r: Reply)
      requires Valid()
      modifies Repr
      ensures Valid() && fresh(Repr - old(Repr))
      ensures (View, r) == MemRekey(old(View), uid, e)
    {
      if uid !in keys || keys[uid].state == DESTROYED {
        return Failed;
      }
      var rec := keys[uid];
      if rec.length <= 0 || rec.length > MAX_KEY_LENGTH_BITS {
        return Failed;
      }
      if e.entropy.None? {
        return Failed;
      }
      ReplaceMaterial(uid, RandomBytes(e.entropy.value, rec.length / 8));
      r := Found(rec.Snapshot());
    }

    method ReplaceMaterial(uid: string, fill: bytes)
      requires Valid() && uid in keys
      modifies Repr
      ensures Valid() && fresh(Repr - old(Repr)) && keys == old(keys)
      ensures var was := old(View.keys[uid]);
        View == old(View).(keys := old(View).keys[uid := was.(material := fill, version := was.version + 1)])
    {
      var rec := keys[uid];
      var keyBytes := new byte[|fill|](i requires 0 <= i < |fill| => fill[i]);
      rec.material := keyBytes;
      Repr := Repr + {keyBytes};
      rec.version := rec.version + 1;
      assert keyBytes[..] == fill;
      View := View.(keys := View.keys[uid := View.keys[uid].(material := fill, version := View.keys[uid].version + 1)]);
      Revalidate(uid);
    }

    method Archive(uid: string) returns (r: Reply)
      requires Valid()
      modifies Repr
      ensures Valid() && fresh(Repr - old(Repr))
      ensures (View, r) == MemSetState(old(View), uid, ARCHIVED)
    {
      if uid !in keys || keys[uid].state == DESTROYED {
        return Failed;
      }
      keys[uid].state := ARCHIVED;
      View := MemSetState(View, uid, ARCHIVED).0;
      Revalidate(uid);
      r := Done;
    }

    method Recover(uid: string) returns (r: Reply)
      requires Valid()
      modifies Repr
      ensures Valid() && fresh(Repr - old(Repr))
      ensures (View, r) == MemRecover(old(View), uid)
    {
      if uid !in keys || keys[uid].state != ARCHIVED {
        return Failed;
      }
      keys[uid].state := PRE_ACTIVE;
      View := MemRecover(View, uid).0;
      Revalidate(uid);
      r := Done;
    }

    method DeriveKey(su: Suite, source: string, data: bytes, name: string, length: int, e: Env) returns (r: Reply)
      requires Valid()
      modifies Repr
      ensures Valid() && fresh(Repr - old(Repr))
      ensures (View, r) == MemDerive(su, old(View), source, data, name, length, e)
    {
      var src := Get(source);
      if src.Failed? {
        return Failed;
      }
      var derived := Expand(su, src.rec, data, name, length, e);
      if derived.None? {
        return Failed;
      }
      Add(derived.value);
      r := Found(derived.value);
    }

    method Expand(su: Suite, src: KeyRecord, data: bytes, name: string, length: int, e: Env) returns (r: Option<KeyRecord>)
      ensures r == Derived(su, src, data, name, length, e)
    {
      var keyLen := BytesIn(length);
      if keyLen <= 0 {
        keyLen := 32;
      }
      if keyLen > MAX_DERIVED_KEY_BYTES || keyLen > HKDF_LIMIT {
        return None;
      }
      var derived := su.hkdf(src.material, data, keyLen);
      r := Some(NewRecord(name, src.algorithm, length, src.usageMask, src.owner, derived, e));
    }

    method GetCustomAttributes(uid: string) returns (r: Reply)
      requires Valid()
      ensures r == if Live(View, uid) then Attributes(AttrsOf(View, uid)) else Failed
    {
      var rec := Get(uid);
      if rec.Failed? {
        return Failed;
      }
      if uid !in attrs {
        return Attributes(map[]);
      }
      var copy: map<string, string> := map[];
      var rest := attrs[uid].Keys;
      while rest != {}
        invariant rest <= attrs[uid].Keys
        invariant copy == map k | k in attrs[uid] && k !in rest :: attrs[uid][k]
        decreases |rest|
      {
        var k :| k in rest;
        copy := copy[k := attrs[uid][k]];
        rest := rest - {k};
      }
      assert copy == attrs[uid];
      r := Attributes(copy);
    }

    /** The inner map is built on the first attribute of a key. */
    method SetCustomAttribute(uid: string, name: string, value: string) returns (r: Reply)
      requires Valid()
      modifies Repr
      ensures Valid() && fresh(Repr - old(Repr))
      ensures (View, r) ==
        if Live(old(View), uid) then (MemSetAttr(old(View), uid, name, value), Done) else (old(View), Failed)
    {
      var rec := Get(uid);
      if rec.Failed? {
        return Failed;
      }
      if uid !in attrs {
        attrs := attrs[uid := map[]];
      }
      attrs := attrs[uid := attrs[uid][name := value]];
      assert attrs == MemSetAttr(old(View), uid, name, value).attrs;
      View := View.(attrs := attrs);
      RevalidateAttrs();
      r := Done;
    }

    method DeleteCustomAttribute(uid: string, name: string) returns (r: Reply)
      requires Valid()
      modifies Repr
      ensures Valid() && fresh(Repr - old(Repr))
      ensures (View, r) ==
        if Live(old(View), uid) then (MemDeleteAttr(old(View), uid, name), Done) else (old(View), Failed)
    {
      var rec := Get(uid);
      if rec.Failed? {
        return Failed;
      }
      if uid in attrs {
        attrs := attrs[uid := attrs[uid] - {name}];
      }
      View := MemDeleteAttr(View, uid, name);
      RevalidateAttrs();
      r := Done;
    }
  }

  method Zeroize(a: array<byte>)
    modifies a
    ensures forall i :: 0 <= i < a.Length ==> a[i] == 0
  {
    for i := 0 to a.Length
      invariant forall j :: 0 <= j < i ==> a[j] == 0
    {
      a[i] := 0;
    }
  }
}
