/** Versions under interleaved rekeys. The read and the write of a SQL rekey are
    separate, so a version counts the successful rekeys only under a condition. */
module ConcurrentRekey {
  import opened KeyTypes
  import opened StoreModel
  import opened Storage
  import opened Concurrency
  import opened ConcurrentRecords

  /** What one action of request `tid` is to one key: the start of a rekey, the write
      half of a SQL rekey, a rekey that reports success, or a Destroy. */
  datatype Moment = Moment(tid: nat, begins: bool, writes: bool, succeeds: bool, destroys: bool)

  ghost function MomentOf(su: Suite, s: System, a: Action, uid: string): Moment {
    Moment(a.tid, Performs(su, s, a) == Some(Rekey(uid)), Completes(s, a, uid), Rekeyed(su, s, a, uid),
           Performs(su, s, a) == Some(Destroy(uid)))
  }

  ghost predicate Described(su: Suite, acts: seq<Action>, states: seq<System>, uid: string, ms: seq<Moment>, k: nat)
    requires k < |acts| == |ms| && |states| == |acts| + 1
  {
    ms[k] == MomentOf(su, states[k], acts[k], uid)
  }

  /** `ms` tells the run from the point of view of one key. */
  ghost predicate Describes(su: Suite, acts: seq<Action>, states: seq<System>, uid: string, ms: seq<Moment>) {
    && |states| == |acts| + 1 && |ms| == |acts|
    && (forall k :: 0 <= k < |acts| ==> Described(su, acts, states, uid, ms, k))
  }

  ghost function Moments(su: Suite, acts: seq<Action>, states: seq<System>, uid: string): (ms: seq<Moment>)
    requires |states| == |acts| + 1
    ensures Describes(su, acts, states, uid, ms)
  {
    seq(|acts|, k requires 0 <= k < |acts| => MomentOf(su, states[k], acts[k], uid))
  }

  /** Successful rekeys among the first `n` moments. */
  function Count(ms: seq<Moment>, n: nat): nat
    requires n <= |ms|
  {
    if n == 0 then 0 else Count(ms, n - 1) + if ms[n - 1].succeeds then 1 else 0
  }

  /** The latest moment before `n` in which the request began a rekey: the read of the
      rekey it has still to write. */
  function ReadBy(ms: seq<Moment>, tid: nat, n: nat): (j: int)
    requires n <= |ms|
    ensures j < n
  {
    if n == 0 then -1
    else if ms[n - 1].tid == tid && ms[n - 1].begins then n - 1
    else ReadBy(ms, tid, n - 1)
  }

  /** Another rekey succeeded, or the key was destroyed, strictly between `j` and `n`. */
  ghost predicate Disturbed(ms: seq<Moment>, j: int, n: nat)
    requires n <= |ms|
  {
    exists m :: 0 <= m < n && j < m && (ms[m].succeeds || ms[m].destroys)
  }

  /** None of the first `n` moments completes a rekey that was disturbed after its read. */
  ghost predicate NoneDisturbed(ms: seq<Moment>, n: nat)
    requires n <= |ms|
  {
    forall k :: 0 <= k < n && ms[k].writes ==> !Disturbed(ms, ReadBy(ms, ms[k].tid, k), k)
  }

  /** The request has still to write a rekey of `uid`. */
  predicate WaitsOn(s: System, tid: nat, uid: string) {
    Waiting(s, tid).Some? && Waiting(s, tid).value.WriteRekey? && Waiting(s, tid).value.uid == uid
  }

  /** What a waiting request is about to write: the next version if it was not
      disturbed, and otherwise too little or nothing. */
  ghost predicate Planned(s: System, ms: seq<Moment>, birth: int, n: nat, r: KeyRecord, tid: nat)
    requires n <= |ms| && WaitsOn(s, tid, r.uid)
  {
    var v := Waiting(s, tid).value.rec.version;
    if Disturbed(ms, ReadBy(ms, tid, n), n)
    then r.state == DESTROYED || v <= birth + Count(ms, n)
    else r.state != DESTROYED && v == r.version + 1
  }

  /** The version is at most the birth version plus the successful rekeys, and exactly
      that while no completed rekey was disturbed. */
  ghost predicate Tallied(s: System, ms: seq<Moment>, birth: int, n: nat, r: KeyRecord)
    requires n <= |ms|
  {
    && Holds(s.b, r)
    && r.version <= birth + Count(ms, n)
    && (r.version == birth + Count(ms, n) <==> NoneDisturbed(ms, n))
    && (forall tid :: WaitsOn(s, tid, r.uid) ==> s.b.Sql? && Planned(s, ms, birth, n, r, tid))
  }

  lemma DisturbedGrows(ms: seq<Moment>, j: int, n: nat)
    requires n < |ms| && j < n
    ensures Disturbed(ms, j, n + 1) <==> Disturbed(ms, j, n) || ms[n].succeeds || ms[n].destroys
    ensures !Disturbed(ms, n, n + 1)
  {
  }

  lemma NoneDisturbedGrows(ms: seq<Moment>, n: nat)
    requires n < |ms|
    ensures NoneDisturbed(ms, n + 1) <==>
      NoneDisturbed(ms, n) && (ms[n].writes ==> !Disturbed(ms, ReadBy(ms, ms[n].tid, n), n))
  {
  }

  /** One action, from a system in which every request knows its place. */
  ghost predicate Steps(su: Suite, s: System, a: Action, uid: string, ms: seq<Moment>, n: nat)
    requires n < |ms|
  {
    Sound(s) && Unused(s.b, a.e.uid) && ms[n] == MomentOf(su, s, a, uid)
  }

  lemma VersionTallied(su: Suite, s: System, a: Action, ms: seq<Moment>, birth: int, n: nat, r: KeyRecord)
    requires n < |ms| && Steps(su, s, a, r.uid, ms, n) && Tallied(s, ms, birth, n, r)
    ensures VersionAfter(su, s, a, r) <= birth + Count(ms, n + 1)
    ensures VersionAfter(su, s, a, r) == birth + Count(ms, n + 1) <==> NoneDisturbed(ms, n + 1)
  {
    NoneDisturbedGrows(ms, n);
    if ms[n].writes {
      assert WaitsOn(s, a.tid, r.uid);
      assert Planned(s, ms, birth, n, r, a.tid);
    }
  }

  lemma PlanTallied(su: Suite, s: System, a: Action, ms: seq<Moment>, birth: int, n: nat, r: KeyRecord, r': KeyRecord, tid: nat)
    requires n < |ms| && Steps(su, s, a, r.uid, ms, n) && Tallied(s, ms, birth, n, r)
    requires r'.uid == r.uid && r'.version == VersionAfter(su, s, a, r)
    requires r'.state == DESTROYED <==> r.state == DESTROYED || ms[n].destroys
    requires WaitsOn(Next(su, s, a), tid, r.uid)
    ensures s.b.Sql? && Planned(Next(su, s, a), ms, birth, n + 1, r', tid)
  {
    WaitingStep(su, s, a, tid);
    if ms[n].tid == tid && ms[n].begins {
      RekeyReads(su, s.b, a.e, r);
      DisturbedGrows(ms, n - 1, n);
    } else {
      assert WaitsOn(s, tid, r.uid);
      assert Planned(s, ms, birth, n, r, tid);
      DisturbedGrows(ms, ReadBy(ms, tid, n), n);
    }
  }

  lemma TallyStep(su: Suite, s: System, a: Action, ms: seq<Moment>, birth: int, n: nat, r: KeyRecord) returns (r': KeyRecord)
    requires n < |ms| && Steps(su, s, a, r.uid, ms, n) && Tallied(s, ms, birth, n, r)
    ensures r'.uid == r.uid && Tallied(Next(su, s, a), ms, birth, n + 1, r')
  {
    r' := NextState(su, s, a, r);
    VersionTallied(su, s, a, ms, birth, n, r);
    NextSound(su, s, a);
    forall tid | WaitsOn(Next(su, s, a), tid, r'.uid)
      ensures s.b.Sql? && Planned(Next(su, s, a), ms, birth, n + 1, r', tid)
    {
      PlanTallied(su, s, a, ms, birth, n, r, r', tid);
    }
  }

  /** A rekey of a key that does not exist fails at once. */
  lemma NothingToRekey(su: Suite, b: Backend, uid: string, e: Env)
    requires Unused(b, uid)
    ensures Begin(su, b, Rekey(uid), e) == Complete(b, Failed)
  {
    LookupFails(b, uid);
  }

  lemma QuietStep(su: Suite, s: System, a: Action, uid: string)
    requires Unused(s.b, uid) && forall tid :: !WaitsOn(s, tid, uid)
    ensures !Rekeyed(su, s, a, uid) && !Completes(s, a, uid)
    ensures forall tid :: !WaitsOn(Next(su, s, a), tid, uid)
  {
    NothingToRekey(su, s.b, uid, a.e);
    assert Completes(s, a, uid) ==> WaitsOn(s, a.tid, uid);
    forall tid | WaitsOn(Next(su, s, a), tid, uid)
      ensures WaitsOn(s, tid, uid)
    {
      WaitingStep(su, s, a, tid);
    }
  }

  /** Before a key exists nobody rekeys it or waits to. */
  lemma {:induction false} QuietBeforeBirth(su: Suite, acts: seq<Action>, states: seq<System>, uid: string, ms: seq<Moment>, n: nat)
    requires Trace(su, acts, states) && Describes(su, acts, states, uid, ms)
    requires n <= |acts| && forall k :: 0 <= k < n - 1 ==> acts[k].e.uid != uid
    ensures Count(ms, n) == 0 && NoneDisturbed(ms, n)
    ensures forall tid :: !WaitsOn(states[n], tid, uid)
  {
    if n > 0 {
      var m := n - 1;
      QuietBeforeBirth(su, acts, states, uid, ms, m);
      TraceUids(su, acts, states, m, uid);
      assert Stepped(su, acts, states, m) && Described(su, acts, states, uid, ms, m);
      QuietStep(su, states[m], acts[m], uid);
      NoneDisturbedGrows(ms, m);
    }
  }

  lemma TraceTallyStep(su: Suite, acts: seq<Action>, states: seq<System>, ms: seq<Moment>, birth: int, m: nat, r: KeyRecord)
      returns (r': KeyRecord)
    requires Trace(su, acts, states) && Describes(su, acts, states, r.uid, ms) && m < |acts| && Tallied(states[m], ms, birth, m, r)
    ensures r'.uid == r.uid && Tallied(states[m + 1], ms, birth, m + 1, r')
  {
    TraceSound(su, acts, states, m);
    TraceUids(su, acts, states, m, acts[m].e.uid);
    assert Stepped(su, acts, states, m) && Described(su, acts, states, r.uid, ms, m);
    r' := TallyStep(su, states[m], acts[m], ms, birth, m, r);
  }

  lemma {:induction false} AlwaysTallied(su: Suite, acts: seq<Action>, states: seq<System>, ms: seq<Moment>, i: nat, n: nat, born: KeyRecord)
      returns (r: KeyRecord)
    requires Trace(su, acts, states) && Describes(su, acts, states, born.uid, ms)
    requires i < n <= |acts| && acts[i].e.uid == born.uid && Holds(states[i + 1].b, born)
    ensures r.uid == born.uid && Tallied(states[n], ms, born.version, n, r)
  {
    if n == i + 1 {
      r := born;
      QuietBeforeBirth(su, acts, states, born.uid, ms, n);
    } else {
      var q := AlwaysTallied(su, acts, states, ms, i, n - 1, born);
      r := TraceTallyStep(su, acts, states, ms, born.version, n - 1, q);
    }
  }

  /** In every interleaving of KMIP and REST requests, on either store, a key's version
      is at most its birth version plus its successful rekeys, and equal to it if and
      only if no completed rekey had another successful rekey, or the Destroy, of the
      key between its read and its write. */
  lemma VersionCountsRekeys(su: Suite, acts: seq<Action>, states: seq<System>, i: nat, n: nat, born: KeyRecord, r: KeyRecord)
    requires Trace(su, acts, states) && i < n <= |acts| && acts[i].e.uid == born.uid && Holds(states[i + 1].b, born)
    requires Holds(states[n].b, r) && r.uid == born.uid
    ensures var ms := Moments(su, acts, states, r.uid);
      && r.version <= born.version + Count(ms, n)
      && (r.version == born.version + Count(ms, n) <==> NoneDisturbed(ms, n))
  {
    var q := AlwaysTallied(su, acts, states, Moments(su, acts, states, r.uid), i, n, born);
    TraceSound(su, acts, states, n);
    Unmoved(states[n].b, q);
  }

  lemma {:induction false} StaysInMemory(su: Suite, acts: seq<Action>, states: seq<System>, n: nat)
    requires Trace(su, acts, states) && n <= |acts| && states[0].b.Mem?
    ensures states[n].b.Mem?
  {
    if n > 0 {
      StaysInMemory(su, acts, states, n - 1);
      assert Stepped(su, acts, states, n - 1);
      TraceSound(su, acts, states, n - 1);
      TraceUids(su, acts, states, n - 1, acts[n - 1].e.uid);
      NextSound(su, states[n - 1], acts[n - 1]);
    }
  }

  /** In memory no rekey has a write half. */
  lemma NoWriteInMemory(su: Suite, acts: seq<Action>, states: seq<System>, ms: seq<Moment>, i: nat, k: nat, born: KeyRecord)
    requires Trace(su, acts, states) && Describes(su, acts, states, born.uid, ms) && states[0].b.Mem?
    requires i < |acts| && k < |acts| && acts[i].e.uid == born.uid && Holds(states[i + 1].b, born)
    ensures !ms[k].writes
  {
    StaysInMemory(su, acts, states, k);
    if k <= i {
      QuietBeforeBirth(su, acts, states, born.uid, ms, k);
    } else {
      var r := AlwaysTallied(su, acts, states, ms, i, k, born);
    }
    assert Described(su, acts, states, born.uid, ms, k);
    assert Completes(states[k], acts[k], born.uid) ==> WaitsOn(states[k], acts[k].tid, born.uid);
  }

  /** In memory the version always counts the successful rekeys. */
  lemma VersionExactInMemory(su: Suite, acts: seq<Action>, states: seq<System>, i: nat, n: nat, born: KeyRecord, r: KeyRecord)
    requires Trace(su, acts, states) && i < n <= |acts| && acts[i].e.uid == born.uid && Holds(states[i + 1].b, born)
    requires Holds(states[n].b, r) && r.uid == born.uid && states[0].b.Mem?
    ensures r.version == born.version + Count(Moments(su, acts, states, r.uid), n)
  {
    var ms := Moments(su, acts, states, r.uid);
    VersionCountsRekeys(su, acts, states, i, n, born, r);
    forall k | 0 <= k < n
      ensures !ms[k].writes
    {
      NoWriteInMemory(su, acts, states, ms, i, k, born);
    }
  }
}
