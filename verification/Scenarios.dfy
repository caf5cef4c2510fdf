/** Interleaved runs that break an order a caller may expect, built action by action
    from an empty store or as the continuation of any run. */
module Scenarios {
  import opened KeyTypes
  import opened StoreModel
  import opened SqlModel
  import opened Storage
  import opened Kmip
  import opened Concurrency
  import opened ConcurrentRecords
  import opened ConcurrentRank

  /** Environments with uids of their own, none used so far from `k` on. */
  predicate Unspent(acts: seq<Action>, es: seq<Env>, k: nat) {
    && (forall i, j :: 0 <= i < j < |es| ==> es[i].uid != es[j].uid)
    && (forall i, j :: 0 <= i < |acts| && k <= j < |es| ==> acts[i].e.uid != es[j].uid)
  }

  lemma Extend(su: Suite, acts: seq<Action>, states: seq<System>, es: seq<Env>, k: nat, a: Action)
    requires Trace(su, acts, states) && k < |es| && Unspent(acts, es, k) && a.e == es[k]
    ensures Trace(su, acts + [a], states + [Next(su, states[|acts|], a)]) && Unspent(acts + [a], es, k + 1)
  {
    var acts', states' := acts + [a], states + [Next(su, states[|acts|], a)];
    forall i | 0 <= i < |acts'|
      ensures Stepped(su, acts', states', i)
    {
      if i < |acts| {
        assert Stepped(su, acts, states, i);
      }
    }
  }

  /** A bare request naming one key. */
  function ItemOn(op: Operation, uid: string): BatchItem {
    BatchItem(Some(op), Some(Payload(Some(uid), [], None, None, None, None, None, None, None, None, None, None, None, None)))
  }

  /** A KMIP transition arrives: it reads the record and waits. */
  lemma CheckStep(su: Suite, s: System, tid: nat, op: Operation, r: KeyRecord, o: Oracle, e: Env)
    requires SoundStore(s.b) && Holds(s.b, r) && r.state != DESTROYED && tid !in s.threads && IsTransition(op)
    ensures Next(su, s, Arrive(tid, ItemOn(op, r.uid), "", o, e))
      == s.(threads := s.threads[tid := Between(ItemOn(op, r.uid), "", o, Found(r))])
  {
    LookupFinds(s.b, r);
    assert Start(ItemOn(op, r.uid), "", o) == Ask(Get(r.uid));
    assert Begin(su, s.b, Get(r.uid), e) == Complete(s.b, Found(r));
  }

  /** It goes on with what it read, even if the record has changed since. */
  lemma ActStep(su: Suite, s: System, tid: nat, op: Operation, uid: string, o: Oracle, rec: KeyRecord, e: Env)
    requires op == OpActivate || op == OpRevoke
    requires tid in s.threads && s.threads[tid] == Between(ItemOn(op, uid), "", o, Found(rec))
    requires ValidateStateTransition(rec.state, op).None?
    ensures Performs(su, s, Advance(tid, e)) == Some(if op == OpActivate then Activate(uid) else Revoke(uid, 0))
    ensures Next(su, s, Advance(tid, e)).threads == s.threads - {tid}
  {
    var item := ItemOn(op, uid);
    assert Start(item, "", o) == Ask(Get(uid));
    assert Continue(su, item, "", o, Found(rec)) == Ask(if op == OpActivate then Activate(uid) else Revoke(uid, 0));
  }

  function NewKey(): Call {
    Create("", ALGORITHM_AES, 256, USAGE_ENCRYPT_DECRYPT, "rest")
  }

  lemma CreateStep(su: Suite, s: System, e: Env) returns (r: KeyRecord)
    requires Initial(s) && e.entropy.Some?
    ensures var s' := Next(su, s, Rest(0, NewKey(), e)); s'.threads == map[] && Holds(s'.b, r)
    ensures r.uid == e.uid && r.state == PRE_ACTIVE && r.length == 256 && r.version == 1
  {
    r := NewRecord("", ALGORITHM_AES, 256, USAGE_ENCRYPT_DECRYPT, "rest", RandomBytes(e.entropy.value, 32), e);
    assert Insert([], r) == Some([] + [r]);
  }

  /** A key is created, and two KMIP items look it up: one to activate it, one to revoke it. */
  lemma BothChecked(su: Suite, start: System, es: seq<Env>, o: Oracle) returns (acts: seq<Action>, states: seq<System>, r: KeyRecord)
    requires Initial(start) && |es| == 5 && Unspent([], es, 0) && es[0].entropy.Some?
    ensures Trace(su, acts, states) && |acts| == 3 && states[0] == start && Unspent(acts, es, 3)
    ensures Holds(states[3].b, r) && r.state == PRE_ACTIVE && r.uid == es[0].uid
    ensures states[3].threads == map[1 := Between(ItemOn(OpActivate, r.uid), "", o, Found(r)),
                                     2 := Between(ItemOn(OpRevoke, r.uid), "", o, Found(r))]
  {
    acts, states := [], [start];
    Extend(su, acts, states, es, 0, Rest(0, NewKey(), es[0]));
    r := CreateStep(su, start, es[0]);
    acts, states := acts + [Rest(0, NewKey(), es[0])], states + [Next(su, start, Rest(0, NewKey(), es[0]))];
    TraceSound(su, acts, states, 1);
    var activate := Arrive(1, ItemOn(OpActivate, r.uid), "", o, es[1]);
    CheckStep(su, states[1], 1, OpActivate, r, o, es[1]);
    Extend(su, acts, states, es, 1, activate);
    acts, states := acts + [activate], states + [Next(su, states[1], activate)];
    var revoke := Arrive(2, ItemOn(OpRevoke, r.uid), "", o, es[2]);
    CheckStep(su, states[2], 2, OpRevoke, r, o, es[2]);
    Extend(su, acts, states, es, 2, revoke);
    acts, states := acts + [revoke], states + [Next(su, states[2], revoke)];
  }

  /** A waiting KMIP item goes on: its change is carried out on the record as it is now. */
  lemma ActOn(su: Suite, acts: seq<Action>, states: seq<System>, es: seq<Env>, k: nat, tid: nat, op: Operation, o: Oracle,
              seen: KeyRecord, r: KeyRecord)
      returns (acts': seq<Action>, states': seq<System>, r': KeyRecord)
    requires Trace(su, acts, states) && k < |es| && Unspent(acts, es, k) && (op == OpActivate || op == OpRevoke)
    requires var s := states[|acts|];
      && tid in s.threads && s.threads[tid] == Between(ItemOn(op, r.uid), "", o, Found(seen))
      && Holds(s.b, r) && r.state != DESTROYED
    requires ValidateStateTransition(seen.state, op).None?
    ensures Trace(su, acts', states') && acts' == acts + [Advance(tid, es[k])] && states' == states + [states'[|acts'|]]
    ensures Unspent(acts', es, k + 1)
    ensures states'[|acts'|].threads == states[|acts|].threads - {tid}
    ensures Performs(su, states[|acts|], Advance(tid, es[k])) == Some(if op == OpActivate then Activate(r.uid) else Revoke(r.uid, 0))
    ensures Holds(states'[|acts'|].b, r') && r'.uid == r.uid && r'.state == if op == OpActivate then ACTIVE else COMPROMISED
  {
    var n, a := |acts|, Advance(tid, es[k]);
    TraceSound(su, acts, states, n);
    TraceUids(su, acts, states, n, es[k].uid);
    ActStep(su, states[n], tid, op, r.uid, o, seen, es[k]);
    r' := NextState(su, states[n], a, r);
    Extend(su, acts, states, es, k, a);
    acts', states' := acts + [a], states + [Next(su, states[n], a)];
  }

  /** The lifecycle order is not kept between concurrent KMIP items, on either store:
      an Activate that was checked before a Revoke and runs after it makes the
      Compromised key Active. */
  lemma ActivateOvertakesRevoke(su: Suite, start: System, es: seq<Env>, o: Oracle)
      returns (acts: seq<Action>, states: seq<System>, revoked: KeyRecord, active: KeyRecord)
    requires Initial(start) && |es| == 5 && Unspent([], es, 0) && es[0].entropy.Some?
    ensures Trace(su, acts, states) && |acts| == 5 && states[0] == start
    ensures Holds(states[4].b, revoked) && revoked.state == COMPROMISED
    ensures Holds(states[5].b, active) && active.uid == revoked.uid && active.state == ACTIVE
    ensures Reactivates(su, states[4], acts[4], revoked)
  {
    var a3, s3, r := BothChecked(su, start, es, o);
    var a4, s4;
    a4, s4, revoked := ActOn(su, a3, s3, es, 3, 2, OpRevoke, o, r, r);
    acts, states, active := ActOn(su, a4, s4, es, 4, 1, OpActivate, o, r, revoked);
  }

  /** An Active SQL record of valid length, which every rekey request is let at. */
  predicate Rekeyable(s: System, r: KeyRecord) {
    s.b.Sql? && r in s.b.db.keys && r.state == ACTIVE && ValidLength(r.length)
  }

  /** A request reads for a rekey; the store does not change. */
  lemma ReadStep(su: Suite, s: System, tid: nat, r: KeyRecord, e: Env) returns (rec: KeyRecord)
    requires SoundStore(s.b) && Rekeyable(s, r) && tid !in s.threads && e.entropy.Some?
    ensures Next(su, s, Rest(tid, Rekey(r.uid), e)) == s.(threads := s.threads[tid := InRest(WriteRekey(r.uid, rec))])
    ensures rec.version == r.version + 1
  {
    LookupFinds(s.b, r);
    rec := RekeyRead(s.b.db, r.uid, e).value;
  }

  /** A request writes what it read, plus one. */
  lemma WriteStep(su: Suite, s: System, tid: nat, r: KeyRecord, rec: KeyRecord, e: Env) returns (r': KeyRecord)
    requires SoundStore(s.b) && Rekeyable(s, r) && tid in s.threads && s.threads[tid] == InRest(WriteRekey(r.uid, rec))
    ensures var s' := Next(su, s, Advance(tid, e)); Rekeyable(s', r') && s'.threads == s.threads - {tid}
    ensures r'.uid == r.uid && r'.version == rec.version
  {
    r' := AfterUpdate(s.b.db, SetMaterialVersion(rec.material, rec.version), r.uid, r);
  }

  /** The second run goes on from the first. */
  ghost predicate Continues(su: Suite, acts: seq<Action>, states: seq<System>, acts': seq<Action>, states': seq<System>) {
    && Trace(su, acts, states) && Trace(su, acts', states')
    && |acts| <= |acts'| && acts == acts'[..|acts|] && states == states'[..|states|]
  }

  lemma ReadOn(su: Suite, acts: seq<Action>, states: seq<System>, es: seq<Env>, k: nat, tid: nat, r: KeyRecord)
      returns (acts': seq<Action>, states': seq<System>, rec: KeyRecord)
    requires Trace(su, acts, states) && k < |es| && Unspent(acts, es, k) && es[k].entropy.Some?
    requires var s := states[|acts|]; Rekeyable(s, r) && tid !in s.threads
    ensures Continues(su, acts, states, acts', states') && |acts'| == |acts| + 1 && Unspent(acts', es, k + 1)
    ensures var s, s' := states[|acts|], states'[|acts'|];
      s' == s.(threads := s.threads[tid := InRest(WriteRekey(r.uid, rec))]) && rec.version == r.version + 1
  {
    TraceSound(su, acts, states, |acts|);
    var a := Rest(tid, Rekey(r.uid), es[k]);
    rec := ReadStep(su, states[|acts|], tid, r, es[k]);
    Extend(su, acts, states, es, k, a);
    acts', states' := acts + [a], states + [Next(su, states[|acts|], a)];
  }

  lemma WriteOn(su: Suite, acts: seq<Action>, states: seq<System>, es: seq<Env>, k: nat, tid: nat, r: KeyRecord, rec: KeyRecord)
      returns (acts': seq<Action>, states': seq<System>, r': KeyRecord)
    requires Trace(su, acts, states) && k < |es| && Unspent(acts, es, k)
    requires var s := states[|acts|]; Rekeyable(s, r) && tid in s.threads && s.threads[tid] == InRest(WriteRekey(r.uid, rec))
    ensures Continues(su, acts, states, acts', states') && |acts'| == |acts| + 1 && Unspent(acts', es, k + 1)
    ensures Completes(states'[|acts|], acts'[|acts|], r.uid)
    ensures var s, s' := states[|acts|], states'[|acts'|]; Rekeyable(s', r') && s'.threads == s.threads - {tid}
    ensures r'.uid == r.uid && r'.version == rec.version
  {
    TraceSound(su, acts, states, |acts|);
    var a := Advance(tid, es[k]);
    r' := WriteStep(su, states[|acts|], tid, r, rec, es[k]);
    Extend(su, acts, states, es, k, a);
    acts', states' := acts + [a], states + [Next(su, states[|acts|], a)];
  }

  /** A rekey nobody disturbs: read, then write. */
  lemma RekeyOn(su: Suite, acts: seq<Action>, states: seq<System>, es: seq<Env>, k: nat, tid: nat, r: KeyRecord)
      returns (acts': seq<Action>, states': seq<System>, r': KeyRecord)
    requires Trace(su, acts, states) && k + 1 < |es| && Unspent(acts, es, k) && es[k].entropy.Some?
    requires var s := states[|acts|]; Rekeyable(s, r) && tid !in s.threads
    ensures Continues(su, acts, states, acts', states') && |acts'| == |acts| + 2 && Unspent(acts', es, k + 2)
    ensures var s, s' := states[|acts|], states'[|acts'|]; Rekeyable(s', r') && s'.threads == s.threads
    ensures r'.uid == r.uid && r'.version == r.version + 1
  {
    var a1, s1, rec := ReadOn(su, acts, states, es, k, tid, r);
    acts', states', r' := WriteOn(su, a1, s1, es, k + 1, tid, r, rec);
    assert acts == a1[..|acts|] == acts'[..|acts|] && states == s1[..|states|] == states'[..|states|];
  }

  /** On SQLite the version can even go down: any run that reaches an Active key can go on
      with three overlapping rekeys, the last of which writes a smaller version. */
  lemma VersionCanDrop(su: Suite, acts: seq<Action>, states: seq<System>, es: seq<Env>, t1: nat, t2: nat, r: KeyRecord)
      returns (acts': seq<Action>, states': seq<System>, high: KeyRecord, low: KeyRecord)
    requires Trace(su, acts, states) && |es| == 6 && Unspent(acts, es, 0) && forall e :: e in es ==> e.entropy.Some?
    requires var s := states[|acts|]; Rekeyable(s, r) && t1 !in s.threads && t2 !in s.threads && t1 != t2
    ensures Trace(su, acts', states') && |acts'| == |acts| + 6 && acts'[..|acts|] == acts
    ensures Holds(states'[|acts'| - 1].b, high) && high.uid == r.uid && high.version == r.version + 2
    ensures Holds(states'[|acts'|].b, low) && low.uid == r.uid && low.version == r.version + 1
  {
    var a1, s1, rec1 := ReadOn(su, acts, states, es, 0, t1, r);
    var a3, s3, mid := RekeyOn(su, a1, s1, es, 1, t2, r);
    var a5, s5;
    a5, s5, high := RekeyOn(su, a3, s3, es, 3, t2, mid);
    acts', states', low := WriteOn(su, a5, s5, es, 5, t1, high, rec1);
    var n := |acts|;
    assert acts == a1[..n] == a3[..n] == a5[..n] == acts'[..n];
  }

  /** An empty SQL store, a REST Create and a REST Activate. */
  lemma ActiveKeyFromEmpty(su: Suite, es: seq<Env>) returns (acts: seq<Action>, states: seq<System>, r: KeyRecord)
    requires |es| >= 2 && Unspent([], es, 0) && es[0].entropy.Some?
    ensures Trace(su, acts, states) && |acts| == 2 && Unspent(acts, es, 2)
    ensures states[0] == System(Sql(EMPTY_DATABASE), map[]) && states[2].threads == map[]
    ensures Rekeyable(states[2], r) && r.uid == es[0].uid && r.version == 1
  {
    var start := System(Sql(EMPTY_DATABASE), map[]);
    var create := Rest(0, NewKey(), es[0]);
    Extend(su, [], [start], es, 0, create);
    var q := CreateStep(su, start, es[0]);
    acts, states := [] + [create], [start] + [Next(su, start, create)];
    TraceSound(su, acts, states, 1);
    TraceUids(su, acts, states, 1, es[1].uid);
    var activate := Rest(0, Activate(q.uid), es[1]);
    r := NextState(su, states[1], activate, q);
    Extend(su, acts, states, es, 1, activate);
    acts, states := acts + [activate], states + [Next(su, states[1], activate)];
  }

  /** Two overlapping rekeys of a new key both report success, and its version is two. */
  lemma OverlappingRekeysFromEmpty(su: Suite, es: seq<Env>) returns (acts: seq<Action>, states: seq<System>, r: KeyRecord)
    requires |es| == 6 && Unspent([], es, 0) && forall e :: e in es ==> e.entropy.Some?
    ensures Trace(su, acts, states) && |acts| == 6 && states[0] == System(Sql(EMPTY_DATABASE), map[])
    ensures Rekeyed(su, states[4], acts[4], r.uid) && Rekeyed(su, states[5], acts[5], r.uid)
    ensures Holds(states[6].b, r) && r.version == 2
  {
    var a2, s2, r2 := ActiveKeyFromEmpty(su, es);
    var a3, s3, rec1 := ReadOn(su, a2, s2, es, 2, 1, r2);
    var a4, s4, rec2 := ReadOn(su, a3, s3, es, 3, 2, r2);
    var a5, s5, r5 := WriteOn(su, a4, s4, es, 4, 1, r2, rec1);
    acts, states, r := WriteOn(su, a5, s5, es, 5, 2, r5, rec2);
    assert states[4] == s5[4] && acts[4] == a5[4];
  }

  /** Three overlapping rekeys of a new key take its version from three down to two. */
  lemma VersionDropsFromEmpty(su: Suite, es: seq<Env>)
      returns (acts: seq<Action>, states: seq<System>, high: KeyRecord, low: KeyRecord)
    requires |es| == 8 && Unspent([], es, 0) && forall e :: e in es ==> e.entropy.Some?
    ensures Trace(su, acts, states) && |acts| == 8
    ensures Holds(states[7].b, high) && high.version == 3
    ensures Holds(states[8].b, low) && low.uid == high.uid && low.version == 2
  {
    var a2, s2, r := ActiveKeyFromEmpty(su, es);
    acts, states, high, low := VersionCanDrop(su, a2, s2, es[2..], 1, 2, r);
  }
}
