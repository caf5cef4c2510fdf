/** Custom attributes over every sequence of storage calls: what is read is what the
    history of successful writes says. */
module Attributes {
  import opened KeyTypes
  import opened StoreModel
  import opened SqlModel
  import opened Backends

  function ValueOf(attrs: map<string, string>, name: string): Option<string> {
    if name in attrs then Some(attrs[name]) else None
  }

  /** The call writes this attribute: it sets it to a value, or deletes it. */
  predicate Writes(c: Call, uid: string, name: string) {
    (c.SetCustomAttribute? || c.DeleteCustomAttribute?) && c.uid == uid && c.name == name
  }

  /** The value given by the last successful write, if that was not a deletion. */
  function LastWrite(reqs: seq<Request>, replies: seq<Reply>, uid: string, name: string): Option<string>
    requires |replies| == |reqs|
  {
    if reqs == [] then None
    else
      var n := |reqs| - 1;
      var c := reqs[n].call;
      if Writes(c, uid, name) && replies[n].Done? then if c.SetCustomAttribute? then Some(c.value) else None
      else LastWrite(reqs[..n], replies[..n], uid, name)
  }

  lemma StepWritesOne(su: Suite, st: Store, c: Call, e: Env, uid: string, name: string)
    ensures var (st', r) := MemStep(su, st, c, e);
      ValueOf(AttrsOf(st', uid), name) ==
        if Writes(c, uid, name) && r.Done? then (if c.SetCustomAttribute? then Some(c.value) else None)
        else ValueOf(AttrsOf(st, uid), name)
  {
  }

  /** At every point each attribute of each key has the value last written to it. */
  lemma {:induction false} StoredIsLastWrite(su: Suite, reqs: seq<Request>, uid: string, name: string)
    ensures var (st, replies) := MemRun(su, EMPTY_STORE, reqs);
      ValueOf(AttrsOf(st, uid), name) == LastWrite(reqs, replies, uid, name)
  {
    if reqs != [] {
      var n := |reqs| - 1;
      StoredIsLastWrite(su, reqs[..n], uid, name);
      var (st, replies) := MemRun(su, EMPTY_STORE, reqs[..n]);
      assert MemRun(su, EMPTY_STORE, reqs).1[..n] == replies;
      StepWritesOne(su, st, reqs[n].call, reqs[n].env, uid, name);
    }
  }

  /** A reply depends on the calls before it and on its own. */
  lemma {:induction false} ReplyAt(su: Suite, reqs: seq<Request>, i: nat)
    requires i < |reqs|
    ensures var replies := MemRun(su, EMPTY_STORE, reqs).1;
      var (st, before) := MemRun(su, EMPTY_STORE, reqs[..i]);
      replies[..i] == before && replies[i] == MemStep(su, st, reqs[i].call, reqs[i].env).1
  {
    var n := |reqs| - 1;
    if i < n {
      ReplyAt(su, reqs[..n], i);
      assert reqs[..n][..i] == reqs[..i];
      assert MemRun(su, EMPTY_STORE, reqs).1[..i] == MemRun(su, EMPTY_STORE, reqs[..n]).1[..i];
    } else {
      assert MemRun(su, EMPTY_STORE, reqs).1[..n] == MemRun(su, EMPTY_STORE, reqs[..n]).1;
    }
  }

  /** A read of a live key's attributes returns, for every name, the value last written
      before it, and nothing for a name never written or last deleted. */
  lemma ReadsLastWrites(su: Suite, reqs: seq<Request>, i: nat, uid: string, name: string)
    requires i < |reqs| && reqs[i].call == GetCustomAttributes(uid)
    ensures var (st, before) := MemRun(su, EMPTY_STORE, reqs[..i]);
      var reply := MemRun(su, EMPTY_STORE, reqs).1[i];
      if Live(st, uid) then reply.Attributes? && ValueOf(reply.attrs, name) == LastWrite(reqs[..i], before, uid, name)
      else reply.Failed?
  {
    ReplyAt(su, reqs, i);
    StoredIsLastWrite(su, reqs[..i], uid, name);
  }

  /** Successful call `k` does not write the attribute. */
  predicate LeavesAlone(reqs: seq<Request>, replies: seq<Reply>, uid: string, name: string, k: nat)
    requires k < |reqs| == |replies|
  {
    !(Writes(reqs[k].call, uid, name) && replies[k].Done?)
  }

  lemma {:induction false} LastWriteIs(reqs: seq<Request>, replies: seq<Reply>, uid: string, name: string, i: nat)
    requires |replies| == |reqs| && i < |reqs|
    requires Writes(reqs[i].call, uid, name) && replies[i].Done?
    requires forall k :: i < k < |reqs| ==> LeavesAlone(reqs, replies, uid, name, k)
    ensures LastWrite(reqs, replies, uid, name) ==
      if reqs[i].call.SetCustomAttribute? then Some(reqs[i].call.value) else None
  {
    var n := |reqs| - 1;
    if i < n {
      assert LeavesAlone(reqs, replies, uid, name, n);
      forall k | i < k < n
        ensures LeavesAlone(reqs[..n], replies[..n], uid, name, k)
      {
        assert LeavesAlone(reqs, replies, uid, name, k);
      }
      LastWriteIs(reqs[..n], replies[..n], uid, name, i);
    }
  }

  /** The value set is the value read, and a deleted attribute is not read, after any
      calls that do not write that attribute in between. */
  lemma {:induction false} AttributeRoundTrip(su: Suite, reqs: seq<Request>, i: nat, j: nat, uid: string, name: string)
    requires i < j < |reqs| && reqs[j].call == GetCustomAttributes(uid)
    requires var replies := MemRun(su, EMPTY_STORE, reqs).1;
      && Writes(reqs[i].call, uid, name) && replies[i].Done? && !replies[j].Failed?
      && (forall k :: i < k < j ==> LeavesAlone(reqs, replies, uid, name, k))
    ensures var reply := MemRun(su, EMPTY_STORE, reqs).1[j];
      && reply.Attributes?
      && ValueOf(reply.attrs, name) == if reqs[i].call.SetCustomAttribute? then Some(reqs[i].call.value) else None
  {
    var replies := MemRun(su, EMPTY_STORE, reqs).1;
    ReplyAt(su, reqs, j);
    ReadsLastWrites(su, reqs, j, uid, name);
    forall k | i < k < j
      ensures LeavesAlone(reqs[..j], replies[..j], uid, name, k)
    {
      assert LeavesAlone(reqs, replies, uid, name, k);
    }
    LastWriteIs(reqs[..j], replies[..j], uid, name, i);
  }

  /** The same against the SQL store. */
  lemma {:induction false} AttributeRoundTripOnSqlite(su: Suite, reqs: seq<Request>, i: nat, j: nat, uid: string, name: string)
    requires DistinctUids(reqs) && i < j < |reqs| && reqs[j].call == GetCustomAttributes(uid)
    requires var replies := SqlRun(su, EMPTY_DATABASE, reqs).1;
      && Writes(reqs[i].call, uid, name) && replies[i].Done? && !replies[j].Failed?
      && (forall k :: i < k < j ==> LeavesAlone(reqs, replies, uid, name, k))
    ensures var reply := SqlRun(su, EMPTY_DATABASE, reqs).1[j];
      && reply.Attributes?
      && ValueOf(reply.attrs, name) == if reqs[i].call.SetCustomAttribute? then Some(reqs[i].call.value) else None
  {
    BackendsAgree(su, reqs);
    AttributeRoundTrip(su, reqs, i, j, uid, name);
  }
}
