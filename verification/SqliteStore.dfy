/** The SQL backend as an object: storage methods that run statements against the
    two tables and scan the returned rows. */
module SqliteBackend {
  import opened KeyTypes
  import opened StoreModel
  import opened SqlModel

  class SqliteStore {
    var keys: seq<KeyRecord>
    var attributes: seq<AttrRow>

    ghost function Tables(): Database
      reads this
    {
      Database(keys, attributes)
    }

    constructor ()
      ensures Tables() == EMPTY_DATABASE
    {
      keys, attributes := [], [];
    }

    /** Runs an UPDATE and reports how many rows it touched. */
    method Exec(a: Assignment, w: Where) returns (n: nat)
      modifies this`keys
      ensures keys == Update(old(keys), a, w) && n == RowsAffected(old(keys), w)
    {
      n := RowsAffected(keys, w);
      keys := Update(keys, a, w);
    }

    method InsertKey(rec: KeyRecord) returns (r: Reply)
      modifies this`keys
      ensures (Tables(), r) == SqlInsert(old(Tables()), rec)
    {
      var rows := Insert(keys, rec);
      if rows.None? {
        return Failed;
      }
      keys := rows.value;
      r := Found(rec);
    }

    method Create(name: string, algorithm: int, length: int, usageMask: int, owner: string, e: Env) returns (r: Reply)
      modifies this`keys
      ensures (Tables(), r) == SqlCreate(old(Tables()), name, algorithm, length, usageMask, owner, e)
    {
      if length <= 0 || length > MAX_KEY_LENGTH_BITS {
        return Failed;
      }
      if e.entropy.None? {
        return Failed;
      }
      r := InsertKey(NewRecord(name, algorithm, length, usageMask, owner, RandomBytes(e.entropy.value, length / 8), e));
    }

    method Get(uid: string) returns (r: Reply)
      ensures r == SqlGet(Tables(), uid)
    {
      var rows := Select(keys, UidNotIn(uid, DESTROYED));
      if |rows| == 0 {
        return Failed;
      }
      r := Found(rows[0]);
    }

    method Locate(name: string) returns (uids: seq<string>)
      ensures uids == UidsOf(Select(keys, NameNotIn(name, DESTROYED)))
    {
      var rows := Select(keys, NameNotIn(name, DESTROYED));
      uids := [];
      for i := 0 to |rows|
        invariant uids == UidsOf(rows[..i])
      {
        uids := uids + [rows[i].uid];
      }
      assert rows[..|rows|] == rows;
    }

    method List() returns (recs: seq<KeyRecord>)
      ensures recs == Select(keys, NotIn(DESTROYED))
    {
      var rows := Select(keys, NotIn(DESTROYED));
      recs := [];
      for i := 0 to |rows|
        invariant recs == rows[..i]
      {
        recs := recs + [rows[i]];
      }
    }

    method Activate(uid: string) returns (r: Reply)
      modifies this`keys
      ensures (Tables(), r) == SqlUpdate(old(Tables()), SetState(ACTIVE), UidNotIn(uid, DESTROYED))
    {
      var n := Exec(SetState(ACTIVE), UidNotIn(uid, DESTROYED));
      r := if n == 0 then Failed else Done;
    }

    method Destroy(uid: string) returns (r: Reply)
      modifies this`keys
      ensures (Tables(), r) == SqlUpdate(old(Tables()), SetStateMaterial(DESTROYED, []), UidNotIn(uid, DESTROYED))
    {
      var n := Exec(SetStateMaterial(DESTROYED, []), UidNotIn(uid, DESTROYED));
      r := if n == 0 then Failed else Done;
    }

    method Register(rec: KeyRecord, e: Env) returns (r: Reply)
      modifies this`keys
      ensures (Tables(), r) == SqlRegister(old(Tables()), rec, e)
    {
      if rec.objectType != CERTIFICATE {
        if rec.length < 0 {
          return Failed;
        }
      }
      r := InsertKey(Registered(rec, e));
    }

    method Revoke(uid: string, reason: int) returns (r: Reply)
      modifies this`keys
      ensures (Tables(), r) == SqlUpdate(old(Tables()), SetStateReason(COMPROMISED, reason), UidNotIn(uid, DESTROYED))
    {
      var n := Exec(SetStateReason(COMPROMISED, reason), UidNotIn(uid, DESTROYED));
      r := if n == 0 then Failed else Done;
    }

    /** Reads, then writes; the row count of the write is not looked at. */
    method Rekey(uid: string, e: Env) returns (r: Reply)
      modifies this`keys
      ensures (Tables(), r) == SqlRekey(old(Tables()), uid, e)
    {
      var found := Get(uid);
      if found.Failed? {
        return Failed;
      }
      var rec := found.rec;
      if rec.length <= 0 || rec.length > MAX_KEY_LENGTH_BITS {
        return Failed;
      }
      if e.entropy.None? {
        return Failed;
      }
      var keyBytes := RandomBytes(e.entropy.value, rec.length / 8);
      var newVersion := rec.version + 1;
      var _ := Exec(SetMaterialVersion(keyBytes, newVersion), UidNotIn(uid, DESTROYED));
      r := Found(rec.(material := keyBytes, version := newVersion));
    }

    method Archive(uid: string) returns (r: Reply)
      modifies this`keys
      ensures (Tables(), r) == SqlUpdate(old(Tables()), SetState(ARCHIVED), UidNotIn(uid, DESTROYED))
    {
      var n := Exec(SetState(ARCHIVED), UidNotIn(uid, DESTROYED));
      r := if n == 0 then Failed else Done;
    }

    method Recover(uid: string) returns (r: Reply)
      modifies this`keys
      ensures (Tables(), r) == SqlUpdate(old(Tables()), SetState(PRE_ACTIVE), UidIn(uid, ARCHIVED))
    {
      var n := Exec(SetState(PRE_ACTIVE), UidIn(uid, ARCHIVED));
      r := if n == 0 then Failed else Done;
    }

    method DeriveKey(su: Suite, source: string, data: bytes, name: string, length: int, e: Env) returns (r: Reply)
      modifies this`keys
      ensures (Tables(), r) == SqlDerive(su, old(Tables()), source, data, name, length, e)
    {
      var src := Get(source);
      if src.Failed? {
        return Failed;
      }
      var keyLen := BytesIn(length);
      if keyLen <= 0 {
        keyLen := 32;
      }
      if keyLen > MAX_DERIVED_KEY_BYTES || keyLen > HKDF_LIMIT {
        return Failed;
      }
      var derived := su.hkdf(src.rec.material, data, keyLen);
      r := InsertKey(NewRecord(name, src.rec.algorithm, length, src.rec.usageMask, src.rec.owner, derived, e));
    }

    method GetCustomAttributes(uid: string) returns (r: Reply)
      ensures r == if SqlGet(Tables(), uid).Failed? then Failed else Attributes(AttrMap(SelectAttrs(attributes, uid)))
    {
      var found := Get(uid);
      if found.Failed? {
        return Failed;
      }
      var rows := SelectAttrs(attributes, uid);
      var attrs: map<string, string> := map[];
      for i := 0 to |rows|
        invariant attrs == AttrMap(rows[..i])
      {
        assert rows[..i + 1][..i] == rows[..i];
        attrs := attrs[rows[i].name := rows[i].value];
      }
      assert rows[..|rows|] == rows;
      r := Attributes(attrs);
    }

    method SetCustomAttribute(uid: string, name: string, value: string) returns (r: Reply)
      modifies this`attributes
      ensures (Tables(), r) ==
        if SqlGet(old(Tables()), uid).Failed? then (old(Tables()), Failed)
        else (Database(old(keys), Upsert(old(attributes), AttrRow(uid, name, value))), Done)
    {
      var found := Get(uid);
      if found.Failed? {
        return Failed;
      }
      attributes := Upsert(attributes, AttrRow(uid, name, value));
      r := Done;
    }

    method DeleteCustomAttribute(uid: string, name: string) returns (r: Reply)
      modifies this`attributes
      ensures (Tables(), r) ==
        if SqlGet(old(Tables()), uid).Failed? then (old(Tables()), Failed)
        else (Database(old(keys), DeleteAttr(old(attributes), uid, name)), Done)
    {
      var found := Get(uid);
      if found.Failed? {
        return Failed;
      }
      attributes := DeleteAttr(attributes, uid, name);
      r := Done;
    }
  }
}
