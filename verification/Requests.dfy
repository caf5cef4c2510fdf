/** What a client may rely on per request: failed items change nothing, and a batch
    is the same as its items sent one by one. */
module Requests {
  import opened KeyTypes
  import opened StoreModel
  import opened SqlModel
  import opened Storage
  import opened Kmip
  import opened Lifecycle

  lemma NoMatchNoUpdate(rows: seq<KeyRecord>, a: Assignment, w: Where)
    requires RowsAffected(rows, w) == 0
    ensures Update(rows, a, w) == rows
  {
    assert forall i :: 0 <= i < |rows| && Matches(w, rows[i]) ==> rows[i] in Select(rows, w);
  }

  /** A storage call that reports failure has changed nothing. */
  lemma FailedCallKeepsStore(su: Suite, b: Backend, c: Call, e: Env)
    requires Invoke(su, b, c, e).1.Failed?
    ensures Invoke(su, b, c, e).0 == b
  {
    if b.Sql? {
      match c
      case Activate(uid) => NoMatchNoUpdate(b.db.keys, SetState(ACTIVE), UidNotIn(uid, DESTROYED));
      case Destroy(uid) => NoMatchNoUpdate(b.db.keys, SetStateMaterial(DESTROYED, []), UidNotIn(uid, DESTROYED));
      case Revoke(uid, reason) => NoMatchNoUpdate(b.db.keys, SetStateReason(COMPROMISED, reason), UidNotIn(uid, DESTROYED));
      case Archive(uid) => NoMatchNoUpdate(b.db.keys, SetState(ARCHIVED), UidNotIn(uid, DESTROYED));
      case Recover(uid) => NoMatchNoUpdate(b.db.keys, SetState(PRE_ACTIVE), UidIn(uid, ARCHIVED));
      case _ =>
    }
  }

  /** Once the private half of a pair is registered, the public half cannot be refused. */
  lemma SecondRegisterSucceeds(su: Suite, b: Backend, first: KeyRecord, second: KeyRecord, e1: Env, e2: Env)
    requires first.objectType != CERTIFICATE && second.length == first.length
    requires e1.uid != e2.uid && Unused(b, e2.uid)
    requires Invoke(su, b, Register(first), e1).1.Found?
    ensures Invoke(su, Invoke(su, b, Register(first), e1).0, Register(second), e2).1.Found?
  {
  }

  /** A pair is never half registered. */
  lemma FailedPairChangesNothing(su: Suite, b: Backend, item: BatchItem, clientCN: string, o: Oracle)
    requires Unused(b, o.second.uid) && o.first.uid != o.second.uid && item.operation == Some(OpCreateKeyPair)
    requires ProcessItem(su, b, item, clientCN, o).1.Failure?
    ensures ProcessItem(su, b, item, clientCN, o).0 == b
  {
    var plan := Start(item, clientCN, o);
    if plan.Ask? {
      var r1 := Invoke(su, b, plan.call, o.first).1;
      if r1.Failed? {
        FailedCallKeepsStore(su, b, plan.call, o.first);
      } else {
        var next := Continue(su, item, clientCN, o, r1);
        SecondRegisterSucceeds(su, b, plan.call.rec, next.call.rec, o.first, o.second);
      }
    }
  }

  /** Apart from a pair, only an item that began with a lookup makes a second call. */
  lemma SecondCallAfterLookup(su: Suite, item: BatchItem, clientCN: string, o: Oracle, r: Reply)
    requires Start(item, clientCN, o).Ask? && item.operation != Some(OpCreateKeyPair)
    requires Continue(su, item, clientCN, o, r).Ask?
    ensures IsLookup(Start(item, clientCN, o).call)
  {
  }

  /** An answer after the first call is a failure only if the call failed or was a lookup. */
  lemma FailsByCall(su: Suite, item: BatchItem, clientCN: string, o: Oracle, r: Reply)
    requires Start(item, clientCN, o).Ask? && item.operation != Some(OpCreateKeyPair)
    requires Continue(su, item, clientCN, o, r).Answer? && Continue(su, item, clientCN, o, r).resp.Failure?
    ensures r.Failed? || IsLookup(Start(item, clientCN, o).call)
  {
  }

  lemma FailedCallsChangeNothing(su: Suite, b: Backend, item: BatchItem, clientCN: string, o: Oracle)
    requires item.operation != Some(OpCreateKeyPair) && ProcessItem(su, b, item, clientCN, o).1.Failure?
    ensures ProcessItem(su, b, item, clientCN, o).0 == b
  {
    var plan := Start(item, clientCN, o);
    if plan.Ask? {
      var (b1, r1) := Invoke(su, b, plan.call, o.first);
      var next := Continue(su, item, clientCN, o, r1);
      if r1.Failed? {
        FailedCallKeepsStore(su, b, plan.call, o.first);
      }
      if next.Ask? {
        SecondCallAfterLookup(su, item, clientCN, o, r1);
        if Invoke(su, b1, next.call, o.second).1.Failed? {
          FailedCallKeepsStore(su, b1, next.call, o.second);
        }
      } else {
        FailsByCall(su, item, clientCN, o, r1);
      }
    }
  }

  /** Every failed batch item leaves all keys and attributes as they were, on both backends. */
  lemma FailedItemChangesNothing(su: Suite, b: Backend, item: BatchItem, clientCN: string, o: Oracle)
    requires Unused(b, o.second.uid) && o.first.uid != o.second.uid
    requires ProcessItem(su, b, item, clientCN, o).1.Failure?
    ensures ProcessItem(su, b, item, clientCN, o).0 == b
  {
    if item.operation == Some(OpCreateKeyPair) {
      FailedPairChangesNothing(su, b, item, clientCN, o);
    } else {
      FailedCallsChangeNothing(su, b, item, clientCN, o);
    }
  }

  /** The items as requests of their own, one after the other, under the same header. */
  ghost function SendSeparately(su: Suite, b: Backend, version: Option<(int, Option<int>)>, items: seq<BatchItem>,
                                clientCN: string, os: seq<Oracle>): (r: (Backend, seq<Response>))
    requires |os| == |items|
    ensures |r.1| == |items|
  {
    if items == [] then (b, [])
    else
      var n := |items| - 1;
      var (b', resps) := SendSeparately(su, b, version, items[..n], clientCN, os[..n]);
      var (b'', resp) := HandleMessage(su, b', RequestMessage(version, [items[n]]), clientCN, [os[n]]);
      (b'', resps + [resp])
  }

  lemma SingleItem(su: Suite, b: Backend, version: Option<(int, Option<int>)>, item: BatchItem, clientCN: string, o: Oracle)
    requires VersionSupported(version)
    ensures var (b', resp) := ProcessItem(su, b, item, clientCN, o);
      HandleMessage(su, b, RequestMessage(version, [item]), clientCN, [o]) == (b', Response(1, [resp]))
  {
    assert [item][..0] == [] && [o][..0] == [];
    var (b', resp) := ProcessItem(su, b, item, clientCN, o);
    assert ProcessItems(su, b, [item], clientCN, [o]) == (b', [] + [resp]);
    assert [] + [resp] == [resp];
  }

  lemma {:induction false} SeparateRequests(su: Suite, b: Backend, version: Option<(int, Option<int>)>, items: seq<BatchItem>,
                                            clientCN: string, os: seq<Oracle>)
    requires |os| == |items| && VersionSupported(version)
    ensures SendSeparately(su, b, version, items, clientCN, os).0 == ProcessItems(su, b, items, clientCN, os).0
    ensures forall i :: 0 <= i < |items| ==>
      SendSeparately(su, b, version, items, clientCN, os).1[i] == Response(1, [ProcessItems(su, b, items, clientCN, os).1[i]])
  {
    if items != [] {
      var n := |items| - 1;
      SeparateRequests(su, b, version, items[..n], clientCN, os[..n]);
      SingleItem(su, ProcessItems(su, b, items[..n], clientCN, os[..n]).0, version, items[n], clientCN, os[n]);
    }
  }

  /** A version is given and is later than 1.4; a minor number left out is 0. */
  predicate Newer(version: Option<(int, Option<int>)>) {
    && version.Some?
    && var minor := if version.value.1.Some? then version.value.1.value else 0;
       version.value.0 > 1 || (version.value.0 == 1 && minor > 4)
  }

  /** Without an operation code an item is answered with reason 4, for code zero with
      reason 5, and never with another. */
  lemma AnonymousFailures(su: Suite, b: Backend, item: BatchItem, clientCN: string, o: Oracle)
    ensures var resp := ProcessItem(su, b, item, clientCN, o).1;
      resp.Failure? && resp.failedOp.None? ==>
        (item.operation.None? && resp.reason == 0x04) || (item.operation == Some(OpUnknown(0)) && resp.reason == 0x05)
  {
    var plan := Start(item, clientCN, o);
    if plan.Ask? {
      NamedFailures(su, item, clientCN, o, Invoke(su, b, plan.call, o.first).1);
    }
  }

  lemma NamedFailures(su: Suite, item: BatchItem, clientCN: string, o: Oracle, r: Reply)
    requires Start(item, clientCN, o).Ask?
    ensures var next := Continue(su, item, clientCN, o, r); next.Answer? && next.resp.Failure? ==> next.resp.failedOp == item.operation
  {
  }

  /** A message is refused for its version if and only if it gives one later than 1.4. */
  lemma VersionRefusedIff(su: Suite, b: Backend, version: Option<(int, Option<int>)>, items: seq<BatchItem>, clientCN: string, os: seq<Oracle>)
    requires |os| == |items|
    ensures HandleMessage(su, b, RequestMessage(version, items), clientCN, os) == (b, Response(1, [Failure(None, 0x08)])) <==> Newer(version)
  {
    if !Newer(version) && 1 <= |items| <= 100 {
      var n := |items| - 1;
      var b' := ProcessItems(su, b, items[..n], clientCN, os[..n]).0;
      AnonymousFailures(su, b', items[n], clientCN, os[n]);
      var resps := ProcessItems(su, b, items, clientCN, os).1;
      assert resps[n] == ProcessItem(su, b', items[n], clientCN, os[n]).1;
      assert |resps| == 1 ==> n == 0;
    }
  }

  /** The other refusals of a whole message: undecodable or no request, no items, more
      than 100. Nothing is processed. */
  lemma RefusedWhole(su: Suite, b: Backend, m: Message, clientCN: string, os: seq<Oracle>)
    requires m.RequestMessage? ==> |os| == |m.items|
    requires !(m.RequestMessage? && Newer(m.version)) && !Processed(m)
    ensures HandleMessage(su, b, m, clientCN, os)
      == (b, Response(1, [Failure(None, if m.RequestMessage? && |m.items| > 100 then 0x02 else 0x04)]))
  {
  }

  /** The batched response is the separate ones laid end to end. */
  ghost predicate Concatenates(batch: Response, separate: seq<Response>) {
    && batch.batchCount == |batch.items| == |separate|
    && (forall i :: 0 <= i < |separate| ==> separate[i] == Response(1, [batch.items[i]]))
  }

  lemma {:induction false} SeparatelyRefused(su: Suite, b: Backend, version: Option<(int, Option<int>)>, items: seq<BatchItem>,
                                             clientCN: string, os: seq<Oracle>)
    requires |os| == |items| && !VersionSupported(version)
    ensures SendSeparately(su, b, version, items, clientCN, os).0 == b
    ensures forall i :: 0 <= i < |items| ==>
      SendSeparately(su, b, version, items, clientCN, os).1[i] == ErrorResponse(REASON_FEATURE_NOT_SUPPORTED)
  {
    if items != [] {
      var n := |items| - 1;
      SeparatelyRefused(su, b, version, items[..n], clientCN, os[..n]);
    }
  }

  /** A batch leaves the same store and gives the same answers as its items sent
      one by one exactly when it has between 1 and 100 items, or, under a version that
      is refused, just one. */
  lemma BatchIsComposition(su: Suite, b: Backend, version: Option<(int, Option<int>)>, items: seq<BatchItem>,
                           clientCN: string, os: seq<Oracle>)
    requires |os| == |items|
    ensures var (whole, resp) := HandleMessage(su, b, RequestMessage(version, items), clientCN, os);
      var (parts, resps) := SendSeparately(su, b, version, items, clientCN, os);
      (whole == parts && Concatenates(resp, resps)) <==>
        if Newer(version) then |items| == 1 else 1 <= |items| <= 100
  {
    if VersionSupported(version) {
      SeparateRequests(su, b, version, items, clientCN, os);
    } else {
      SeparatelyRefused(su, b, version, items, clientCN, os);
    }
  }

  /** A request as it reaches the handler, with what its items draw from outside. */
  datatype Incoming = Incoming(message: Message, clientCN: string, os: seq<Oracle>)

  predicate Supplied(m: Incoming) {
    m.message.RequestMessage? ==> |m.os| == |m.message.items|
  }

  /** Requests answered one after the other. */
  ghost function Conversation(su: Suite, b: Backend, ms: seq<Incoming>): (r: (Backend, seq<Response>))
    requires forall i :: 0 <= i < |ms| ==> Supplied(ms[i])
    ensures |r.1| == |ms|
  {
    if ms == [] then (b, [])
    else
      var n := |ms| - 1;
      assert Supplied(ms[n]);
      var (b', resps) := Conversation(su, b, ms[..n]);
      var (b'', resp) := HandleMessage(su, b', ms[n].message, ms[n].clientCN, ms[n].os);
      (b'', resps + [resp])
  }

  /** The handler goes through the items rather than refusing the whole message. */
  predicate Processed(m: Message) {
    m.RequestMessage? && !Newer(m.version) && 1 <= |m.items| <= 100
  }

  function ItemSteps(items: seq<BatchItem>, clientCN: string, os: seq<Oracle>): seq<Step>
    requires |os| == |items|
  {
    seq(|os|, i requires 0 <= i < |os| => Step(items[i], clientCN, os[i]))
  }

  /** The items a conversation processes, in order. */
  function StepsOf(m: Incoming): seq<Step>
    requires Supplied(m)
  {
    if !Processed(m.message) then []
    else ItemSteps(m.message.items, m.clientCN, m.os)
  }

  function AllSteps(ms: seq<Incoming>): seq<Step>
    requires forall i :: 0 <= i < |ms| ==> Supplied(ms[i])
  {
    if ms == [] then [] else AllSteps(ms[..|ms| - 1]) + StepsOf(ms[|ms| - 1])
  }

  /** The responses to those items, in order. */
  function AllAnswers(ms: seq<Incoming>, resps: seq<Response>): seq<ItemResponse>
    requires |resps| == |ms|
  {
    if ms == [] then []
    else
      var n := |ms| - 1;
      AllAnswers(ms[..n], resps[..n]) + Answers(ms[n].message, resps[n])
  }

  lemma {:induction false} RunSplits(su: Suite, b: Backend, first: seq<Step>, second: seq<Step>)
    ensures var (b1, r1) := Run(su, b, first);
      var (b2, r2) := Run(su, b1, second);
      Run(su, b, first + second) == (b2, r1 + r2)
  {
    if second == [] {
      assert first + second == first;
      assert Run(su, b, first).1 + [] == Run(su, b, first).1;
    } else {
      var n := |second| - 1;
      RunSplits(su, b, first, second[..n]);
      var both, r1 := first + second, Run(su, b, first).1;
      var (mid, r2) := Run(su, Run(su, b, first).0, second[..n]);
      assert both[..|first| + n] == first + second[..n] && both[|first| + n] == second[n];
      var (last, resp) := ProcessItem(su, mid, second[n].item, second[n].clientCN, second[n].o);
      assert Run(su, b, both) == (last, r1 + r2 + [resp]);
      assert r1 + r2 + [resp] == r1 + (r2 + [resp]);
    }
  }

  lemma {:induction false} ItemsAreARun(su: Suite, b: Backend, items: seq<BatchItem>, clientCN: string, os: seq<Oracle>)
    requires |os| == |items|
    ensures ProcessItems(su, b, items, clientCN, os) == Run(su, b, ItemSteps(items, clientCN, os))
  {
    if items != [] {
      var n := |items| - 1;
      ItemsAreARun(su, b, items[..n], clientCN, os[..n]);
      assert ItemSteps(items, clientCN, os)[..n] == ItemSteps(items[..n], clientCN, os[..n]);
    }
  }

  /** The answers a message's items got. */
  function Answers(m: Message, resp: Response): seq<ItemResponse> {
    if Processed(m) then resp.items else []
  }

  lemma MessageIsRun(su: Suite, b: Backend, m: Incoming)
    requires Supplied(m)
    ensures var (b', resp) := HandleMessage(su, b, m.message, m.clientCN, m.os);
      Run(su, b, StepsOf(m)) == (b', Answers(m.message, resp))
  {
    if Processed(m.message) {
      ItemsAreARun(su, b, m.message.items, m.clientCN, m.os);
    }
  }

  /** A conversation is the run of its processed items, so every claim about runs is a
      claim about requests: messages refused as a whole leave no trace, and batch
      boundaries make no difference. */
  lemma {:induction false} ConversationIsRun(su: Suite, b: Backend, ms: seq<Incoming>)
    requires forall i :: 0 <= i < |ms| ==> Supplied(ms[i])
    ensures var (b', resps) := Conversation(su, b, ms);
      Run(su, b, AllSteps(ms)) == (b', AllAnswers(ms, resps))
  {
    if ms != [] {
      var n := |ms| - 1;
      ConversationIsRun(su, b, ms[..n]);
      var (mid, resps) := Conversation(su, b, ms[..n]);
      assert Conversation(su, b, ms).1[..n] == resps;
      assert Supplied(ms[n]);
      MessageIsRun(su, mid, ms[n]);
      RunSplits(su, b, AllSteps(ms[..n]), StepsOf(ms[n]));
    }
  }
}
