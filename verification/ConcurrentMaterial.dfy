/** Key material under interleaved requests, on either backend: how much of it there
    is, where it came from, and what was sealed with it. */
module ConcurrentMaterial {
  import opened KeyTypes
  import opened StoreModel
  import opened Storage
  import opened Kmip
  import opened Lifecycle
  import opened Answers
  import opened Concurrency
  import opened ConcurrentRecords
  import opened ConcurrentRekey

  /** A live key holds Length/8 bytes, and so does every rekey still to be written. */
  ghost predicate Sized(s: System, r: KeyRecord) {
    && ValidLength(r.length)
    && (r.state != DESTROYED ==> |r.material| == r.length / 8)
    && (forall tid :: WaitsOn(s, tid, r.uid) ==> |Waiting(s, tid).value.rec.material| == r.length / 8)
  }

  /** A call changes nothing of a key's identity, and a rekey gives it its size again. */
  lemma AppliedSized(su: Suite, b: Backend, c: Call, e: Env, r: KeyRecord)
    requires SoundStore(b) && Holds(b, r)
    ensures var r' := Applied(c, Begin(su, b, c, e), r);
      SameIdentity(r, r') && (r'.state != DESTROYED ==> r'.material == r.material || |r'.material| == r.length / 8)
  {
    if c == Rekey(r.uid) && Succeeds(Begin(su, b, c, e)) {
      LockedRekey(su, b, e, r);
    }
  }

  lemma RecordSized(su: Suite, s: System, a: Action, r: KeyRecord)
    requires Sound(s) && Holds(s.b, r) && Sized(s, r)
    ensures var r' := RecordAfter(su, s, a, r);
      SameIdentity(r, r') && (r'.state != DESTROYED ==> |r'.material| == r.length / 8)
  {
    var c := Performs(su, s, a);
    if c.Some? {
      AppliedSized(su, s.b, c.value, a.e, r);
    } else {
      assert Completes(s, a, r.uid) ==> WaitsOn(s, a.tid, r.uid);
    }
  }

  lemma PlanSized(su: Suite, s: System, a: Action, r: KeyRecord, tid: nat)
    requires Sound(s) && Holds(s.b, r) && Sized(s, r) && WaitsOn(Next(su, s, a), tid, r.uid)
    ensures |Waiting(Next(su, s, a), tid).value.rec.material| == r.length / 8
  {
    WaitingStep(su, s, a, tid);
    if a.tid == tid && Performs(su, s, a) == Some(Rekey(r.uid)) {
      RekeyReads(su, s.b, a.e, r);
    } else {
      assert WaitsOn(s, tid, r.uid);
    }
  }

  lemma SizedStep(su: Suite, s: System, a: Action, r: KeyRecord) returns (r': KeyRecord)
    requires Sound(s) && Unused(s.b, a.e.uid) && Holds(s.b, r) && Sized(s, r)
    ensures Holds(Next(su, s, a).b, r') && SameIdentity(r, r') && Sized(Next(su, s, a), r')
  {
    r' := NextState(su, s, a, r);
    RecordSized(su, s, a, r);
    forall tid | WaitsOn(Next(su, s, a), tid, r'.uid)
      ensures |Waiting(Next(su, s, a), tid).value.rec.material| == r'.length / 8
    {
      PlanSized(su, s, a, r, tid);
    }
  }

  /** A record that Create brings into being. */
  lemma CreatedSized(su: Suite, s: System, a: Action, born: KeyRecord)
    requires Unused(s.b, a.e.uid) && Performs(su, s, a).Some? && Performs(su, s, a).value.Create?
    requires Holds(Next(su, s, a).b, born) && born.uid == a.e.uid
    ensures ValidLength(born.length) && |born.material| == born.length / 8 && born.version == 1
  {
    var c := Performs(su, s, a).value;
    assert Next(su, s, a).b == Begin(su, s.b, c, a.e).b;
    CreatedRecord(su, s.b, c, a.e, born);
  }

  lemma CreatedRecord(su: Suite, b: Backend, c: Call, e: Env, born: KeyRecord)
    requires Unused(b, e.uid) && c.Create? && born.uid == e.uid
    requires Begin(su, b, c, e).Complete? && Holds(Begin(su, b, c, e).b, born)
    ensures ValidLength(born.length) && |born.material| == born.length / 8 && born.version == 1
  {
    assert b.Sql? ==> forall r :: r in b.db.keys ==> r.uid != e.uid;
  }

  lemma TraceSizedStep(su: Suite, acts: seq<Action>, states: seq<System>, m: nat, r: KeyRecord) returns (r': KeyRecord)
    requires Concurrency.Trace(su, acts, states) && m < |acts| && Holds(states[m].b, r) && Sized(states[m], r)
    ensures Holds(states[m + 1].b, r') && SameIdentity(r, r') && Sized(states[m + 1], r')
  {
    TraceSound(su, acts, states, m);
    TraceUids(su, acts, states, m, acts[m].e.uid);
    assert Stepped(su, acts, states, m);
    r' := SizedStep(su, states[m], acts[m], r);
  }

  lemma BornSized(su: Suite, acts: seq<Action>, states: seq<System>, i: nat, born: KeyRecord)
    requires Concurrency.Trace(su, acts, states) && i < |acts| && acts[i].e.uid == born.uid && Holds(states[i + 1].b, born)
    requires Performs(su, states[i], acts[i]).Some? && Performs(su, states[i], acts[i]).value.Create?
    ensures Sized(states[i + 1], born)
  {
    TraceUids(su, acts, states, i, acts[i].e.uid);
    assert Stepped(su, acts, states, i);
    CreatedSized(su, states[i], acts[i], born);
    QuietBeforeBirth(su, acts, states, born.uid, Moments(su, acts, states, born.uid), i + 1);
  }

  lemma {:induction false} AlwaysSized(su: Suite, acts: seq<Action>, states: seq<System>, i: nat, n: nat, born: KeyRecord)
      returns (r: KeyRecord)
    requires Concurrency.Trace(su, acts, states) && i < n <= |acts| && acts[i].e.uid == born.uid && Holds(states[i + 1].b, born)
    requires Performs(su, states[i], acts[i]).Some? && Performs(su, states[i], acts[i]).value.Create?
    ensures Holds(states[n].b, r) && SameIdentity(born, r) && Sized(states[n], r)
  {
    if n == i + 1 {
      r := born;
      BornSized(su, acts, states, i, born);
    } else {
      var q := AlwaysSized(su, acts, states, i, n - 1, born);
      r := TraceSizedStep(su, acts, states, n - 1, q);
    }
  }

  /** In every interleaving a created key that is not destroyed holds Length/8 bytes,
      through any number of overlapping rekeys, and keeps its identity. */
  lemma CreatedKeyKeepsSize(su: Suite, acts: seq<Action>, states: seq<System>, i: nat, n: nat, born: KeyRecord, r: KeyRecord)
    requires Concurrency.Trace(su, acts, states) && i < n <= |acts| && acts[i].e.uid == born.uid && Holds(states[i + 1].b, born)
    requires Performs(su, states[i], acts[i]).Some? && Performs(su, states[i], acts[i]).value.Create?
    requires Holds(states[n].b, r) && r.uid == born.uid
    ensures SameIdentity(born, r)
    ensures |r.material| == if r.state == DESTROYED then 0 else born.length / 8
  {
    var q := AlwaysSized(su, acts, states, i, n, born);
    TraceSound(su, acts, states, n);
    Unmoved(states[n].b, q);
    assert Proper(r);
  }

  /** The record a successful rekey reports to its client. */
  ghost function Reported(su: Suite, s: System, a: Action, uid: string): KeyRecord
    requires Rekeyed(su, s, a, uid)
  {
    if Completes(s, a, uid) then Waiting(s, a.tid).value.rec else Begin(su, s.b, Rekey(uid), a.e).r.rec
  }

  /** Material and version go together. */
  predicate SamePair(r: KeyRecord, r': KeyRecord) {
    r'.material == r.material && r'.version == r.version
  }

  /** The action is a rekey that reported this material and version to its client. */
  ghost predicate Delivers(su: Suite, s: System, a: Action, r: KeyRecord) {
    Rekeyed(su, s, a, r.uid) && SamePair(Reported(su, s, a, r.uid), r)
  }

  lemma PairStep(su: Suite, s: System, a: Action, r: KeyRecord)
    requires RecordAfter(su, s, a, r).state != DESTROYED && RecordAfter(su, s, a, r).uid == r.uid
    ensures SamePair(r, RecordAfter(su, s, a, r)) || Delivers(su, s, a, RecordAfter(su, s, a, r))
    ensures r.state != DESTROYED
  {
  }

  /** The pair is the one the key was born with, or one that some rekey after `i` and
      before `n` delivered. */
  ghost predicate Traceable(su: Suite, acts: seq<Action>, states: seq<System>, i: nat, n: nat, born: KeyRecord, r: KeyRecord)
    requires n <= |acts| && |states| == |acts| + 1
  {
    SamePair(born, r) || exists k :: i < k < n && Delivers(su, states[k], acts[k], r)
  }

  lemma {:induction false} AlwaysTraceable(su: Suite, acts: seq<Action>, states: seq<System>, i: nat, n: nat, born: KeyRecord)
      returns (r: KeyRecord)
    requires Concurrency.Trace(su, acts, states) && i < n <= |acts| && Holds(states[i + 1].b, born)
    ensures Holds(states[n].b, r) && r.uid == born.uid
    ensures r.state != DESTROYED ==> Traceable(su, acts, states, i, n, born, r)
  {
    if n == i + 1 {
      r := born;
    } else {
      var m := n - 1;
      var q := AlwaysTraceable(su, acts, states, i, m, born);
      TraceSound(su, acts, states, m);
      TraceUids(su, acts, states, m, acts[m].e.uid);
      assert Stepped(su, acts, states, m);
      r := NextState(su, states[m], acts[m], q);
      if r.state != DESTROYED {
        PairStep(su, states[m], acts[m], q);
        TraceableStep(su, acts, states, i, m, born, q, r);
      }
    }
  }

  lemma TraceableStep(su: Suite, acts: seq<Action>, states: seq<System>, i: nat, m: nat, born: KeyRecord, q: KeyRecord, r: KeyRecord)
    requires i < m < |acts| && |states| == |acts| + 1 && Traceable(su, acts, states, i, m, born, q) && r.uid == q.uid
    requires SamePair(q, r) || Delivers(su, states[m], acts[m], r)
    ensures Traceable(su, acts, states, i, m + 1, born, r)
  {
    if SamePair(q, r) && !SamePair(born, q) {
      var k :| i < k < m && Delivers(su, states[k], acts[k], q);
      assert Delivers(su, states[k], acts[k], r);
    }
  }

  /** In every interleaving a live key's material and version are the pair it was born
      with or the pair one successful rekey reported to its client: never a mixture,
      and never something no client was told of. */
  lemma MaterialIsDelivered(su: Suite, acts: seq<Action>, states: seq<System>, i: nat, n: nat, born: KeyRecord, r: KeyRecord)
    requires Concurrency.Trace(su, acts, states) && i < n <= |acts| && Holds(states[i + 1].b, born)
    requires Holds(states[n].b, r) && r.uid == born.uid && r.state != DESTROYED
    ensures Traceable(su, acts, states, i, n, born, r)
  {
    var q := AlwaysTraceable(su, acts, states, i, n, born);
    TraceSound(su, acts, states, n);
    Unmoved(states[n].b, q);
  }

  /** A KMIP item that only looks a key up arrives at a free request slot. */
  predicate Looks(s: System, a: Action, uid: string) {
    && a.Arrive? && a.tid !in s.threads
    && a.item.operation.Some? && IsUse(a.item.operation.value)
    && Start(a.item, a.clientCN, a.o) == Ask(Get(uid))
  }

  /** Its answer, fixed by what the lookup finds, whatever happens before it is sent. */
  function AnswerTo(su: Suite, item: BatchItem, clientCN: string, o: Oracle, found: Reply): ItemResponse
    requires Start(item, clientCN, o).Ask?
  {
    var next := Continue(su, item, clientCN, o, found);
    if next.Answer? then next.resp else Failure(None, REASON_GENERAL_FAILURE)
  }

  lemma UsesAnswer(su: Suite, item: BatchItem, clientCN: string, o: Oracle, found: Reply)
    requires Start(item, clientCN, o).Ask? && IsUse(item.operation.value)
    ensures Continue(su, item, clientCN, o, found).Answer?
  {
  }

  /** The looked-up record waits with the request, which answers from it. */
  lemma AnswerIsFixed(su: Suite, s: System, a: Action, uid: string)
    requires Looks(s, a, uid)
    ensures var s' := Next(su, s, a);
      && s'.b == s.b && a.tid in s'.threads
      && s'.threads[a.tid] == Between(a.item, a.clientCN, a.o, Lookup(s.b, uid))
      && Continue(su, a.item, a.clientCN, a.o, Lookup(s.b, uid)).Answer?
  {
    UsesAnswer(su, a.item, a.clientCN, a.o, Lookup(s.b, uid));
    assert Begin(su, s.b, Get(uid), a.e) == Complete(s.b, Lookup(s.b, uid));
  }

  /** The action neither rekeys, revokes nor destroys the key. */
  ghost predicate Spares(su: Suite, s: System, a: Action, uid: string) {
    && !Rekeyed(su, s, a, uid)
    && (Performs(su, s, a).Some? ==>
          Performs(su, s, a).value != Destroy(uid) && !(Performs(su, s, a).value.Revoke? && Performs(su, s, a).value.uid == uid))
  }

  lemma SparedStep(su: Suite, s: System, a: Action, r: KeyRecord)
    requires r.state == ACTIVE && Spares(su, s, a, r.uid)
    ensures RecordAfter(su, s, a, r) == r
  {
  }

  lemma {:induction false} SparedKey(su: Suite, acts: seq<Action>, states: seq<System>, i: nat, j: nat, r: KeyRecord)
    requires Concurrency.Trace(su, acts, states) && i <= j <= |acts| && Holds(states[i].b, r) && r.state == ACTIVE
    requires forall k :: i <= k < j ==> Spares(su, states[k], acts[k], r.uid)
    ensures Holds(states[j].b, r)
  {
    if i < j {
      var m := j - 1;
      SparedKey(su, acts, states, i, m, r);
      TraceSound(su, acts, states, m);
      TraceUids(su, acts, states, m, acts[m].e.uid);
      assert Stepped(su, acts, states, m) && Spares(su, states[m], acts[m], r.uid);
      var r' := NextState(su, states[m], acts[m], r);
      SparedStep(su, states[m], acts[m], r);
    }
  }

  lemma EncryptAnswer(su: Suite, item: BatchItem, clientCN: string, o: Oracle, uid: string, found: Reply)
    requires Start(item, clientCN, o) == Ask(Get(uid)) && Did(item, AnswerTo(su, item, clientCN, o, found), OpEncrypt, uid)
    ensures found.Found? && item.payload.value.data.Some?
    ensures var rec, body := found.rec, AnswerTo(su, item, clientCN, o, found).body;
      && rec.state == ACTIVE && rec.objectType == SYMMETRIC_KEY && ValidAesKey(rec.material)
      && body.Encrypted? && IsNonce(body.nonce, o)
      && body.data == su.seal(rec.material, body.nonce, item.payload.value.data.value)
  {
  }

  lemma DecryptAnswer(su: Suite, item: BatchItem, clientCN: string, o: Oracle, rec: KeyRecord)
    requires item.operation == Some(OpDecrypt) && Start(item, clientCN, o) == Ask(Get(rec.uid))
    requires rec.state == ACTIVE && rec.objectType == SYMMETRIC_KEY && ValidAesKey(rec.material)
    requires item.payload.value.data.Some? && item.payload.value.nonce.Some? && |item.payload.value.nonce.value| == GCM_NONCE_SIZE
    ensures var plain := su.open(rec.material, item.payload.value.nonce.value, item.payload.value.data.value);
      AnswerTo(su, item, clientCN, o, Found(rec))
        == if plain.Some? then Success(OpDecrypt, Decrypted(rec.uid, plain.value)) else Failure(Some(OpDecrypt), REASON_CRYPTOGRAPHIC_FAILURE)
  {
  }

  /** In every interleaving, what an Encrypt returned decrypts to the original plaintext
      if the key is not rekeyed, revoked or destroyed between the two lookups, whatever
      else runs in between and however late either answer is sent. */
  lemma {:induction false} InterleavedDecryptInverts(su: Suite, acts: seq<Action>, states: seq<System>, i: nat, j: nat, uid: string)
    requires Lawful(su) && Concurrency.Trace(su, acts, states) && i < j < |acts|
    requires Looks(states[i], acts[i], uid) && Looks(states[j], acts[j], uid)
    requires var sent := AnswerTo(su, acts[i].item, acts[i].clientCN, acts[i].o, Lookup(states[i].b, uid));
      Did(acts[i].item, sent, OpEncrypt, uid) && DecryptsBack(acts[j].item, sent.body, uid)
    requires forall k :: i <= k < j ==> Spares(su, states[k], acts[k], uid)
    ensures acts[i].item.payload.value.data.Some?
    ensures IsNonce(AnswerTo(su, acts[i].item, acts[i].clientCN, acts[i].o, Lookup(states[i].b, uid)).body.nonce, acts[i].o)
    ensures AnswerTo(su, acts[j].item, acts[j].clientCN, acts[j].o, Lookup(states[j].b, uid))
      == Success(OpDecrypt, Decrypted(uid, acts[i].item.payload.value.data.value))
  {
    TraceSound(su, acts, states, i);
    EncryptAnswer(su, acts[i].item, acts[i].clientCN, acts[i].o, uid, Lookup(states[i].b, uid));
    LookupHolds(states[i].b, uid);
    var rec := Lookup(states[i].b, uid).rec;
    SparedKey(su, acts, states, i, j, rec);
    TraceSound(su, acts, states, j);
    LookupFinds(states[j].b, rec);
    DecryptAnswer(su, acts[j].item, acts[j].clientCN, acts[j].o, rec);
  }
}
