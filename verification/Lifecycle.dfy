/** Whole runs of KMIP batch items: lifecycle order, soundness of key use against
    the run's own history, and equality of the two backends. */
module Lifecycle {
  import opened KeyTypes
  import opened StoreModel
  import opened SqlModel
  import opened Storage
  import opened Kmip

  datatype Step = Step(item: BatchItem, clientCN: string, o: Oracle)

  ghost function Run(su: Suite, b: Backend, steps: seq<Step>): (r: (Backend, seq<ItemResponse>))
    ensures |r.1| == |steps|
  {
    if steps == [] then (b, [])
    else
      var n := |steps| - 1;
      var (b', resps) := Run(su, b, steps[..n]);
      var (b'', resp) := ProcessItem(su, b', steps[n].item, steps[n].clientCN, steps[n].o);
      (b'', resps + [resp])
  }

  /** No generated uid occurs twice in the run. */
  ghost predicate DistinctSteps(steps: seq<Step>) {
    && (forall i :: 0 <= i < |steps| ==> steps[i].o.first.uid != steps[i].o.second.uid)
    && (forall i, j :: 0 <= i < j < |steps| ==> {steps[i].o.first.uid, steps[i].o.second.uid} !! {steps[j].o.first.uid, steps[j].o.second.uid})
  }

  /** The uids one item may generate are new and differ. */
  predicate FreshItem(st: Store, o: Oracle) {
    o.first.uid !in st.keys && o.second.uid !in st.keys && o.first.uid != o.second.uid
  }

  /** The item succeeded as `op` on the key it names. */
  predicate Did(item: BatchItem, resp: ItemResponse, op: Operation, uid: string) {
    resp.Success? && item.operation == Some(op) && HasUid(item.payload) && item.payload.value.uid.value == uid
  }

  /** The item asks for `op` on `uid`. */
  predicate Asks(item: BatchItem, op: Operation, uid: string) {
    item.operation == Some(op) && item.payload.Some? && item.payload.value.uid == Some(uid)
  }

  /** What one item may do to the record under `uid`. */
  ghost predicate RecordEffect(item: BatchItem, resp: ItemResponse, uid: string, rec: KeyRecord, rec': KeyRecord) {
    if Did(item, resp, OpActivate, uid) then rec.state == PRE_ACTIVE && rec' == rec.(state := ACTIVE)
    else if Did(item, resp, OpRevoke, uid) then
      (rec.state == PRE_ACTIVE || rec.state == ACTIVE || rec.state == DEACTIVATED)
      && rec' == rec.(state := COMPROMISED, revocationReason := rec'.revocationReason)
    else if Did(item, resp, OpDestroy, uid) then rec.state != DESTROYED && rec' == rec.(state := DESTROYED, material := [])
    else if Did(item, resp, OpArchive, uid) then rec.state == DEACTIVATED && rec' == rec.(state := ARCHIVED)
    else if Did(item, resp, OpRecover, uid) then rec.state == ARCHIVED && rec' == rec.(state := PRE_ACTIVE)
    else if Did(item, resp, OpReKey, uid) then rec.state == ACTIVE && rec' == rec.(material := rec'.material, version := rec.version + 1)
    else rec' == rec
  }

  ghost predicate ItemEffect(item: BatchItem, resp: ItemResponse, o: Oracle, st: Store, st': Store) {
    && (forall u :: u in st.keys ==> u in st'.keys && RecordEffect(item, resp, u, st.keys[u], st'.keys[u]))
    && (forall u :: u in st'.keys && u !in st.keys ==>
          (u == o.first.uid || u == o.second.uid) && st'.keys[u].state == PRE_ACTIVE && st'.keys[u].uid == u)
    && (forall u, op :: Did(item, resp, op, u) && (IsTransition(op) || IsUse(op)) ==> u in st.keys)
    && (forall u, op :: Did(item, resp, op, u) && IsUse(op) ==> u in st.keys && st.keys[u].state == ACTIVE)
  }

  /** The item's effect on the store is one of those above. */
  ghost predicate Admissible(su: Suite, st: Store, item: BatchItem, clientCN: string, o: Oracle) {
    var (b', resp) := ProcessItem(su, Mem(st), item, clientCN, o);
    b'.Mem? && ItemEffect(item, resp, o, st, b'.st)
  }

  /** A transition is a lookup, the gate, and then the change. */
  lemma TransitionOutcome(su: Suite, st: Store, item: BatchItem, clientCN: string, o: Oracle)
    requires item.operation.Some? && IsTransition(item.operation.value) && HasUid(item.payload)
    ensures var op, p := item.operation.value, item.payload.value;
      ProcessItem(su, Mem(st), item, clientCN, o) ==
        if !Live(st, p.uid.value) then (Mem(st), Failure(Some(op), REASON_ITEM_NOT_FOUND))
        else if ValidateStateTransition(st.keys[p.uid.value].state, op).Some? then (Mem(st), Failure(Some(op), REASON_ILLEGAL_OPERATION))
        else var (st', r) := MemStep(su, st, TransitionCall(op, p), o.second); (Mem(st'), Finish(item, Found(st.keys[p.uid.value]), r))
  {
    var op, uid := item.operation.value, item.payload.value.uid.value;
    assert Start(item, clientCN, o) == Ask(Get(uid));
    if Live(st, uid) && ValidateStateTransition(st.keys[uid].state, op).None? {
      assert Continue(su, item, clientCN, o, Found(st.keys[uid])) == Ask(TransitionCall(op, item.payload.value));
    }
  }

  lemma TransitionEffect(su: Suite, st: Store, item: BatchItem, clientCN: string, o: Oracle)
    requires item.operation.Some? && IsTransition(item.operation.value)
    ensures Admissible(su, st, item, clientCN, o)
  {
    if HasUid(item.payload) {
      AdmittedEffect(su, st, item, clientCN, o);
    } else {
      AnswerEffect(su, st, item, clientCN, o);
    }
  }

  lemma AdmittedEffect(su: Suite, st: Store, item: BatchItem, clientCN: string, o: Oracle)
    requires item.operation.Some? && IsTransition(item.operation.value) && HasUid(item.payload)
    ensures Admissible(su, st, item, clientCN, o)
  {
    TransitionOutcome(su, st, item, clientCN, o);
    var op, uid := item.operation.value, item.payload.value.uid.value;
    if Live(st, uid) && ValidateStateTransition(st.keys[uid].state, op).None? {
      var (st', r) := MemStep(su, st, TransitionCall(op, item.payload.value), o.second);
      ChangeEffect(su, st, item, o, Finish(item, Found(st.keys[uid]), r));
    }
  }

  /** A change of the named record alone, of the kind its operation makes. */
  lemma OneRecordEffect(item: BatchItem, resp: ItemResponse, o: Oracle, st: Store, st': Store, rec: KeyRecord)
    requires item.operation.Some? && IsTransition(item.operation.value) && HasUid(item.payload)
    requires var uid := item.payload.value.uid.value;
      uid in st.keys && st'.keys == st.keys[uid := rec] && RecordEffect(item, resp, uid, st.keys[uid], rec)
    ensures ItemEffect(item, resp, o, st, st')
  {
    var uid := item.payload.value.uid.value;
    assert st'.keys.Keys == st.keys.Keys && forall u :: u in st.keys && u != uid ==> st'.keys[u] == st.keys[u];
    forall u | u in st.keys && u != uid
      ensures RecordEffect(item, resp, u, st.keys[u], st'.keys[u])
    {
      UntouchedElsewhere(item, resp, u, st.keys[u]);
    }
    TransitionUsesNoKey(item.operation.value);
  }

  lemma UntouchedElsewhere(item: BatchItem, resp: ItemResponse, uid: string, rec: KeyRecord)
    requires HasUid(item.payload) && item.payload.value.uid.value != uid
    ensures RecordEffect(item, resp, uid, rec, rec)
  {
  }

  lemma TransitionUsesNoKey(op: Operation)
    requires IsTransition(op)
    ensures !IsUse(op)
  {
  }

  /** What an admitted transition makes of the record it found. */
  function Changed(op: Operation, p: Payload, rec: KeyRecord, e: Env): KeyRecord
    requires IsTransition(op)
  {
    match op
    case OpActivate => rec.(state := ACTIVE)
    case OpRevoke => rec.(state := COMPROMISED, revocationReason := if p.revocationCode.Some? then p.revocationCode.value else 0)
    case OpDestroy => rec.(state := DESTROYED, material := [])
    case OpArchive => rec.(state := ARCHIVED)
    case OpRecover => rec.(state := PRE_ACTIVE)
    case OpReKey =>
      if ValidLength(rec.length) && e.entropy.Some?
      then rec.(material := RandomBytes(e.entropy.value, rec.length / 8), version := rec.version + 1) else rec
  }

  lemma ChangeOutcome(su: Suite, st: Store, op: Operation, p: Payload, e: Env)
    requires IsTransition(op) && p.uid.Some? && Live(st, p.uid.value)
    requires ValidateStateTransition(st.keys[p.uid.value].state, op).None?
    ensures var (st', r) := MemStep(su, st, TransitionCall(op, p), e);
      var rec := st.keys[p.uid.value];
      && (r.Failed? ==> st' == st)
      && (!r.Failed? ==> st'.keys == st.keys[p.uid.value := Changed(op, p, rec, e)])
      && (!r.Failed? && op == OpReKey ==> ValidLength(rec.length) && e.entropy.Some?)
  {
  }

  lemma ChangedAsAsked(item: BatchItem, resp: ItemResponse, rec: KeyRecord, e: Env)
    requires item.operation.Some? && IsTransition(item.operation.value) && HasUid(item.payload) && resp.Success?
    requires rec.state != DESTROYED && ValidateStateTransition(rec.state, item.operation.value).None?
    requires item.operation == Some(OpReKey) ==> ValidLength(rec.length) && e.entropy.Some?
    ensures RecordEffect(item, resp, item.payload.value.uid.value, rec, Changed(item.operation.value, item.payload.value, rec, e))
  {
  }

  lemma ChangeEffect(su: Suite, st: Store, item: BatchItem, o: Oracle, resp: ItemResponse)
    requires item.operation.Some? && IsTransition(item.operation.value) && HasUid(item.payload)
    requires var op, uid := item.operation.value, item.payload.value.uid.value;
      && Live(st, uid) && ValidateStateTransition(st.keys[uid].state, op).None?
      && resp.Success? == !MemStep(su, st, TransitionCall(op, item.payload.value), o.second).1.Failed?
    ensures ItemEffect(item, resp, o, st, MemStep(su, st, TransitionCall(item.operation.value, item.payload.value), o.second).0)
  {
    var op, p := item.operation.value, item.payload.value;
    var (st', r) := MemStep(su, st, TransitionCall(op, p), o.second);
    ChangeOutcome(su, st, op, p, o.second);
    if r.Failed? {
      ReadingEffect(item, resp, o, st);
    } else {
      var rec := Changed(op, p, st.keys[p.uid.value], o.second);
      ChangedAsAsked(item, resp, st.keys[p.uid.value], o.second);
      OneRecordEffect(item, resp, o, st, st', rec);
    }
  }

  /** An item that leaves the store alone is admissible if it is no transition, and a
      use only of an Active key. */
  lemma ReadingEffect(item: BatchItem, resp: ItemResponse, o: Oracle, st: Store)
    requires resp.Success? ==> item.operation.Some? && !IsTransition(item.operation.value)
    requires resp.Success? && IsUse(item.operation.value) && HasUid(item.payload) ==>
      Live(st, item.payload.value.uid.value) && st.keys[item.payload.value.uid.value].state == ACTIVE
    ensures ItemEffect(item, resp, o, st, st)
  {
    assert forall u, op :: Did(item, resp, op, u) ==> op == item.operation.value && u == item.payload.value.uid.value;
    forall u | u in st.keys
      ensures RecordEffect(item, resp, u, st.keys[u], st.keys[u])
    {
    }
  }

  /** A lookup that is not followed by a change answers from the record it found. */
  lemma LookupAnswers(su: Suite, st: Store, item: BatchItem, clientCN: string, o: Oracle)
    requires Start(item, clientCN, o).Ask? && IsLookup(Start(item, clientCN, o).call)
    requires !IsTransition(item.operation.value)
    ensures HasUid(item.payload)
    ensures var (b', resp) := ProcessItem(su, Mem(st), item, clientCN, o);
      var uid := item.payload.value.uid.value;
      && b' == Mem(st)
      && (resp.Success? ==> Live(st, uid) && ValidateStateTransition(st.keys[uid].state, item.operation.value).None?)
  {
    var uid := item.payload.value.uid.value;
    var r1 := Invoke(su, Mem(st), Start(item, clientCN, o).call, o.first).1;
    assert r1 == MemGet(st, uid);
    assert Continue(su, item, clientCN, o, r1).Answer?;
  }

  lemma LookupEffect(su: Suite, st: Store, item: BatchItem, clientCN: string, o: Oracle)
    requires Start(item, clientCN, o).Ask? && IsLookup(Start(item, clientCN, o).call)
    requires !IsTransition(item.operation.value)
    ensures Admissible(su, st, item, clientCN, o)
  {
    LookupAnswers(su, st, item, clientCN, o);
    ReadingEffect(item, ProcessItem(su, Mem(st), item, clientCN, o).1, o, st);
  }

  /** New PreActive records under the item's own uids, and nothing else. */
  ghost predicate OnlyAdds(st: Store, st': Store, o: Oracle) {
    && (forall u :: u in st.keys ==> u in st'.keys && st'.keys[u] == st.keys[u])
    && (forall u :: u in st'.keys && u !in st.keys ==>
          (u == o.first.uid || u == o.second.uid) && st'.keys[u].state == PRE_ACTIVE && st'.keys[u].uid == u)
  }

  /** A pair is two registrations, and the second cannot fail once the first has not. */
  lemma PairCreated(su: Suite, st: Store, item: BatchItem, clientCN: string, o: Oracle)
    requires item.operation == Some(OpCreateKeyPair) && Start(item, clientCN, o).Ask?
    ensures var t := PairTemplate(item.payload.value);
      var first, second := PairRecord(t, PRIVATE_KEY, o.keyPair.value.0), PairRecord(t, PUBLIC_KEY, o.keyPair.value.1);
      ProcessItem(su, Mem(st), item, clientCN, o) ==
        if !Registrable(first) then (Mem(st), Failure(Some(OpCreateKeyPair), REASON_GENERAL_FAILURE))
        else (Mem(Put(Put(st, Registered(first, o.first)), Registered(second, o.second))),
              Success(OpCreateKeyPair, KeyPair(o.first.uid, o.second.uid)))
  {
    assert Start(item, clientCN, o) == Ask(Register(PairRecord(PairTemplate(item.payload.value), PRIVATE_KEY, o.keyPair.value.0)));
  }

  lemma PairEffect(su: Suite, st: Store, item: BatchItem, clientCN: string, o: Oracle)
    requires item.operation == Some(OpCreateKeyPair) && FreshItem(st, o) && Start(item, clientCN, o).Ask?
    ensures var b' := ProcessItem(su, Mem(st), item, clientCN, o).0; b'.Mem? && OnlyAdds(st, b'.st, o)
  {
    PairCreated(su, st, item, clientCN, o);
  }

  lemma CallEffect(su: Suite, st: Store, item: BatchItem, clientCN: string, o: Oracle)
    requires FreshItem(st, o)
    requires Start(item, clientCN, o).Ask? && !IsLookup(Start(item, clientCN, o).call)
    requires item.operation != Some(OpCreateKeyPair)
    ensures var b' := ProcessItem(su, Mem(st), item, clientCN, o).0; b'.Mem? && OnlyAdds(st, b'.st, o)
  {
    var c := Start(item, clientCN, o).call;
    var (st1, r1) := MemStep(su, st, c, o.first);
    assert Continue(su, item, clientCN, o, r1).Answer?;
    assert c.Create? || c.Register? || c.DeriveKey? || c.Locate? || c.SetCustomAttribute? || c.DeleteCustomAttribute?;
    AdditionsOnly(su, st, c, o);
  }

  lemma AdditionsOnly(su: Suite, st: Store, c: Call, o: Oracle)
    requires FreshItem(st, o)
    requires c.Create? || c.Register? || c.DeriveKey? || c.Locate? || c.SetCustomAttribute? || c.DeleteCustomAttribute?
    ensures OnlyAdds(st, MemStep(su, st, c, o.first).0, o)
  {
  }

  lemma AddingEffect(item: BatchItem, resp: ItemResponse, o: Oracle, st: Store, st': Store)
    requires OnlyAdds(st, st', o)
    requires item.operation.Some? && !IsTransition(item.operation.value) && !IsUse(item.operation.value)
    ensures ItemEffect(item, resp, o, st, st')
  {
  }

  lemma AnswersUseNoKey(item: BatchItem, clientCN: string, o: Oracle)
    requires Start(item, clientCN, o).Answer? && Start(item, clientCN, o).resp.Success?
    ensures item.operation.Some? && !IsTransition(item.operation.value) && !IsUse(item.operation.value)
  {
  }

  lemma AnswerEffect(su: Suite, st: Store, item: BatchItem, clientCN: string, o: Oracle)
    requires Start(item, clientCN, o).Answer?
    ensures Admissible(su, st, item, clientCN, o)
  {
    var resp := Start(item, clientCN, o).resp;
    if resp.Success? {
      AnswersUseNoKey(item, clientCN, o);
    }
    ReadingEffect(item, resp, o, st);
  }

  lemma CreatorsUseNoKey(item: BatchItem, clientCN: string, o: Oracle)
    requires Start(item, clientCN, o).Ask? && !IsLookup(Start(item, clientCN, o).call)
    ensures !IsTransition(item.operation.value) && !IsUse(item.operation.value)
  {
  }

  lemma CreatingEffect(su: Suite, st: Store, item: BatchItem, clientCN: string, o: Oracle)
    requires FreshItem(st, o)
    requires Start(item, clientCN, o).Ask? && !IsLookup(Start(item, clientCN, o).call)
    ensures Admissible(su, st, item, clientCN, o)
  {
    if item.operation == Some(OpCreateKeyPair) {
      PairEffect(su, st, item, clientCN, o);
    } else {
      CallEffect(su, st, item, clientCN, o);
    }
    CreatorsUseNoKey(item, clientCN, o);
    var (b', resp) := ProcessItem(su, Mem(st), item, clientCN, o);
    AddingEffect(item, resp, o, st, b'.st);
  }

  lemma EveryItemEffect(su: Suite, st: Store, item: BatchItem, clientCN: string, o: Oracle)
    requires FreshItem(st, o)
    ensures Admissible(su, st, item, clientCN, o)
  {
    var plan := Start(item, clientCN, o);
    if plan.Answer? {
      AnswerEffect(su, st, item, clientCN, o);
    } else if IsTransition(item.operation.value) {
      TransitionEffect(su, st, item, clientCN, o);
    } else if IsLookup(plan.call) {
      LookupEffect(su, st, item, clientCN, o);
    } else {
      CreatingEffect(su, st, item, clientCN, o);
    }
  }

  /** A run as the stores it passes through: each item has an admissible effect. */
  ghost predicate Trace(steps: seq<Step>, resps: seq<ItemResponse>, stores: seq<Store>) {
    && |resps| == |steps| && |stores| == |steps| + 1
    && stores[0] == EMPTY_STORE
    && (forall i :: 0 <= i < |steps| ==> ItemEffect(steps[i].item, resps[i], steps[i].o, stores[i], stores[i + 1]))
  }

  /** The stores a run in memory passes through. */
  ghost function Stores(su: Suite, steps: seq<Step>): (r: seq<Store>)
    requires DistinctSteps(steps)
    ensures |r| == |steps| + 1
  {
    RunInMemory(su, steps);
    if steps == [] then [EMPTY_STORE]
    else Stores(su, steps[..|steps| - 1]) + [Run(su, Mem(EMPTY_STORE), steps).0.st]
  }

  ghost predicate Generated(steps: seq<Step>, uid: string) {
    exists i :: 0 <= i < |steps| && uid in {steps[i].o.first.uid, steps[i].o.second.uid}
  }

  /** A run in memory stays in memory and holds only uids it generated. */
  lemma {:induction false} RunInMemory(su: Suite, steps: seq<Step>)
    requires DistinctSteps(steps)
    ensures Run(su, Mem(EMPTY_STORE), steps).0.Mem?
    ensures forall u :: u in Run(su, Mem(EMPTY_STORE), steps).0.st.keys ==> Generated(steps, u)
  {
    if steps != [] {
      var n := |steps| - 1;
      RunInMemory(su, steps[..n]);
      var st := Run(su, Mem(EMPTY_STORE), steps[..n]).0.st;
      FreshAfter(steps, st, n);
      EveryItemEffect(su, st, steps[n].item, steps[n].clientCN, steps[n].o);
      forall u | u in Run(su, Mem(EMPTY_STORE), steps).0.st.keys
        ensures Generated(steps, u)
      {
        if u in st.keys {
          var i :| 0 <= i < n && u in {steps[..n][i].o.first.uid, steps[..n][i].o.second.uid};
          assert steps[..n][i] == steps[i];
        }
      }
    }
  }

  lemma FreshAfter(steps: seq<Step>, st: Store, n: nat)
    requires DistinctSteps(steps) && n < |steps|
    requires forall u :: u in st.keys ==> Generated(steps[..n], u)
    ensures FreshItem(st, steps[n].o)
  {
    forall u | u in st.keys
      ensures u != steps[n].o.first.uid && u != steps[n].o.second.uid
    {
      var i :| 0 <= i < n && u in {steps[..n][i].o.first.uid, steps[..n][i].o.second.uid};
      assert {steps[i].o.first.uid, steps[i].o.second.uid} !! {steps[n].o.first.uid, steps[n].o.second.uid};
    }
  }

  /** The last step of a run acts on the store the steps before it left. */
  lemma LastStep(su: Suite, steps: seq<Step>)
    requires DistinctSteps(steps) && steps != []
    ensures var n := |steps| - 1;
      var (b, resps) := Run(su, Mem(EMPTY_STORE), steps[..n]);
      var (b', all) := Run(su, Mem(EMPTY_STORE), steps);
      && b.Mem? && b'.Mem? && all[..n] == resps
      && (b', all[n]) == ProcessItem(su, b, steps[n].item, steps[n].clientCN, steps[n].o)
      && ItemEffect(steps[n].item, all[n], steps[n].o, b.st, b'.st)
  {
    var n := |steps| - 1;
    RunInMemory(su, steps[..n]);
    var st := Run(su, Mem(EMPTY_STORE), steps[..n]).0.st;
    FreshAfter(steps, st, n);
    EveryItemEffect(su, st, steps[n].item, steps[n].clientCN, steps[n].o);
  }

  lemma TraceGrows(steps: seq<Step>, resps: seq<ItemResponse>, stores: seq<Store>, resp: ItemResponse, st: Store)
    requires steps != [] && Trace(steps[..|steps| - 1], resps, stores)
    requires var n := |steps| - 1; ItemEffect(steps[n].item, resp, steps[n].o, stores[n], st)
    ensures Trace(steps, resps + [resp], stores + [st])
  {
    var n, resps', stores' := |steps| - 1, resps + [resp], stores + [st];
    forall i | 0 <= i < |steps|
      ensures ItemEffect(steps[i].item, resps'[i], steps[i].o, stores'[i], stores'[i + 1])
    {
      if i < n {
        assert ItemEffect(steps[..n][i].item, resps[i], steps[..n][i].o, stores[i], stores[i + 1]);
      }
    }
  }

  /** One more step makes a trace longer. */
  lemma TraceStep(su: Suite, steps: seq<Step>)
    requires DistinctSteps(steps) && steps != []
    requires var n := |steps| - 1;
      && Trace(steps[..n], Run(su, Mem(EMPTY_STORE), steps[..n]).1, Stores(su, steps[..n]))
      && Run(su, Mem(EMPTY_STORE), steps[..n]).0 == Mem(Stores(su, steps[..n])[n])
    ensures Trace(steps, Run(su, Mem(EMPTY_STORE), steps).1, Stores(su, steps))
    ensures Run(su, Mem(EMPTY_STORE), steps).0 == Mem(Stores(su, steps)[|steps|])
  {
    var n := |steps| - 1;
    LastStep(su, steps);
    var (b, resps) := Run(su, Mem(EMPTY_STORE), steps);
    TraceGrows(steps, resps[..n], Stores(su, steps[..n]), resps[n], b.st);
    assert resps[..n] + [resps[n]] == resps;
  }

  lemma LastAnswered(su: Suite, steps: seq<Step>)
    requires DistinctSteps(steps) && steps != []
    requires var n := |steps| - 1; Run(su, Mem(EMPTY_STORE), steps[..n]).0 == Mem(Stores(su, steps[..n])[n])
    ensures AnsweredAt(su, steps, |steps| - 1)
  {
    LastStep(su, steps);
  }

  /** Every run in memory is a trace, and each step of it answers its item against the store before it. */
  lemma {:induction false} RunIsTrace(su: Suite, steps: seq<Step>)
    requires DistinctSteps(steps)
    ensures Trace(steps, Run(su, Mem(EMPTY_STORE), steps).1, Stores(su, steps))
    ensures Run(su, Mem(EMPTY_STORE), steps).0 == Mem(Stores(su, steps)[|steps|])
    ensures forall i :: 0 <= i < |steps| ==> AnsweredAt(su, steps, i)
  {
    if steps != [] {
      var n := |steps| - 1;
      RunIsTrace(su, steps[..n]);
      TraceStep(su, steps);
      LastAnswered(su, steps);
      forall i | 0 <= i < n
        ensures AnsweredAt(su, steps, i)
      {
        StillAnswered(su, steps, i);
      }
    }
  }

  lemma StillAnswered(su: Suite, steps: seq<Step>, i: nat)
    requires DistinctSteps(steps) && i < |steps| - 1 && AnsweredAt(su, steps[..|steps| - 1], i)
    ensures AnsweredAt(su, steps, i)
  {
    var n := |steps| - 1;
    assert steps[..n][i] == steps[i] && Stores(su, steps)[i] == Stores(su, steps[..n])[i] && Stores(su, steps)[i + 1] == Stores(su, steps[..n])[i + 1];
    assert Run(su, Mem(EMPTY_STORE), steps).1[i] == Run(su, Mem(EMPTY_STORE), steps[..n]).1[i];
  }

  ghost predicate AnsweredAt(su: Suite, steps: seq<Step>, i: nat)
    requires DistinctSteps(steps) && i < |steps|
  {
    ProcessItem(su, Mem(Stores(su, steps)[i]), steps[i].item, steps[i].clientCN, steps[i].o)
      == (Mem(Stores(su, steps)[i + 1]), Run(su, Mem(EMPTY_STORE), steps).1[i])
  }

  /** How many of the first `i` items succeeded as `op` on `uid`. */
  function Successes(steps: seq<Step>, resps: seq<ItemResponse>, op: Operation, uid: string, i: nat): nat
    requires i <= |steps| <= |resps|
  {
    if i == 0 then 0
    else Successes(steps, resps, op, uid, i - 1) + if Did(steps[i - 1].item, resps[i - 1], op, uid) then 1 else 0
  }

  /** What the state of a key says about the operations that succeeded on it. */
  ghost predicate Consistent(st: Store, uid: string, activated: nat, revoked: nat, destroyed: nat) {
    if uid !in st.keys then activated == revoked == destroyed == 0
    else
      var s := st.keys[uid].state;
      || (s == PRE_ACTIVE && activated == revoked == destroyed == 0)
      || (s == ACTIVE && activated == 1 && revoked == destroyed == 0)
      || (s == COMPROMISED && activated <= 1 && revoked == 1 && destroyed == 0)
      || (s == DESTROYED && activated <= 1 && revoked <= 1 && destroyed == 1)
  }

  /** History and state agree at every point of every trace. */
  lemma {:induction false} HistoryConsistent(steps: seq<Step>, resps: seq<ItemResponse>, stores: seq<Store>, uid: string, i: nat)
    requires Trace(steps, resps, stores) && i <= |steps|
    ensures Consistent(stores[i], uid,
      Successes(steps, resps, OpActivate, uid, i), Successes(steps, resps, OpRevoke, uid, i), Successes(steps, resps, OpDestroy, uid, i))
    ensures Successes(steps, resps, OpArchive, uid, i) == 0 && Successes(steps, resps, OpRecover, uid, i) == 0
  {
    if i > 0 {
      HistoryConsistent(steps, resps, stores, uid, i - 1);
      var item, resp := steps[i - 1].item, resps[i - 1];
      assert ItemEffect(item, resp, steps[i - 1].o, stores[i - 1], stores[i]);
      if uid in stores[i - 1].keys {
        assert RecordEffect(item, resp, uid, stores[i - 1].keys[uid], stores[i].keys[uid]);
      } else {
        assert forall op :: IsTransition(op) ==> !Did(item, resp, op, uid);
      }
    }
  }

  /** A key is only ever used, or rekeyed, after exactly one successful Activate
      and before any successful Revoke or Destroy. */
  lemma UseIsSound(su: Suite, b: Backend, steps: seq<Step>, i: nat, op: Operation, uid: string)
    requires EmptyBackend(b) && DistinctSteps(steps) && i < |steps|
    requires IsUse(op) || op == OpReKey
    requires Did(steps[i].item, Run(su, b, steps).1[i], op, uid)
    ensures var resps := Run(su, b, steps).1;
      && Successes(steps, resps, OpActivate, uid, i) == 1
      && Successes(steps, resps, OpRevoke, uid, i) == 0
      && Successes(steps, resps, OpDestroy, uid, i) == 0
  {
    SameResponses(su, b, steps);
    RunIsTrace(su, steps);
    UseIsSoundInTrace(steps, Run(su, Mem(EMPTY_STORE), steps).1, Stores(su, steps), i, op, uid);
  }

  lemma UseIsSoundInTrace(steps: seq<Step>, resps: seq<ItemResponse>, stores: seq<Store>, i: nat, op: Operation, uid: string)
    requires Trace(steps, resps, stores) && i < |steps|
    requires IsUse(op) || op == OpReKey
    requires Did(steps[i].item, resps[i], op, uid)
    ensures Successes(steps, resps, OpActivate, uid, i) == 1
    ensures Successes(steps, resps, OpRevoke, uid, i) == 0
    ensures Successes(steps, resps, OpDestroy, uid, i) == 0
  {
    HistoryConsistent(steps, resps, stores, uid, i);
    assert ItemEffect(steps[i].item, resps[i], steps[i].o, stores[i], stores[i + 1]);
    assert RecordEffect(steps[i].item, resps[i], uid, stores[i].keys[uid], stores[i + 1].keys[uid]);
  }

  /** Each key is activated, revoked and destroyed at most once; Archive and Recover never succeed. */
  lemma TransitionsHappenOnce(su: Suite, b: Backend, steps: seq<Step>, uid: string)
    requires EmptyBackend(b) && DistinctSteps(steps)
    ensures var resps, n := Run(su, b, steps).1, |steps|;
      && Successes(steps, resps, OpActivate, uid, n) <= 1
      && Successes(steps, resps, OpRevoke, uid, n) <= 1
      && Successes(steps, resps, OpDestroy, uid, n) <= 1
      && Successes(steps, resps, OpArchive, uid, n) == 0
      && Successes(steps, resps, OpRecover, uid, n) == 0
  {
    SameResponses(su, b, steps);
    RunIsTrace(su, steps);
    HistoryConsistent(steps, Run(su, Mem(EMPTY_STORE), steps).1, Stores(su, steps), uid, |steps|);
  }

  /** PreActive < Active < Compromised < Destroyed; anything else ranks nowhere. */
  function Rank(state: KeyState): int {
    if state == PRE_ACTIVE then 0
    else if state == ACTIVE then 1
    else if state == COMPROMISED then 2
    else if state == DESTROYED then 3
    else -1
  }

  /** Over any stretch of a run a key only moves up in rank, and never leaves the four ranked states. */
  lemma RankRisesInMemory(su: Suite, steps: seq<Step>, uid: string, i: nat, j: nat)
    requires DistinctSteps(steps) && i <= j <= |steps|
    requires uid in Stores(su, steps)[i].keys
    ensures uid in Stores(su, steps)[j].keys
    ensures var before, after := Stores(su, steps)[i].keys[uid].state, Stores(su, steps)[j].keys[uid].state;
      0 <= Rank(before) <= Rank(after) && (before != after ==> Rank(before) < Rank(after))
  {
    RunIsTrace(su, steps);
    RankRisesInTrace(steps, Run(su, Mem(EMPTY_STORE), steps).1, Stores(su, steps), uid, i, j);
  }

  lemma {:induction false} RankRisesInTrace(steps: seq<Step>, resps: seq<ItemResponse>, stores: seq<Store>, uid: string, i: nat, j: nat)
    requires Trace(steps, resps, stores) && i <= j <= |steps|
    requires uid in stores[i].keys
    ensures uid in stores[j].keys
    ensures var before, after := stores[i].keys[uid].state, stores[j].keys[uid].state;
      0 <= Rank(before) <= Rank(after) && (before != after ==> Rank(before) < Rank(after))
  {
    if i < j {
      RankRisesInTrace(steps, resps, stores, uid, i, j - 1);
      assert ItemEffect(steps[j - 1].item, resps[j - 1], steps[j - 1].o, stores[j - 1], stores[j]);
      assert RecordEffect(steps[j - 1].item, resps[j - 1], uid, stores[j - 1].keys[uid], stores[j].keys[uid]);
    } else {
      HistoryConsistent(steps, resps, stores, uid, i);
    }
  }

  /** Item `k` neither rekeyed, revoked nor destroyed the key. */
  predicate LeftAlone(steps: seq<Step>, resps: seq<ItemResponse>, uid: string, k: nat)
    requires k < |steps| <= |resps|
  {
    forall op :: op in {OpReKey, OpRevoke, OpDestroy} ==> !Did(steps[k].item, resps[k], op, uid)
  }

  /** A key that is left alone keeps the record it was used with. */
  lemma {:induction false} UntouchedKey(steps: seq<Step>, resps: seq<ItemResponse>, stores: seq<Store>, uid: string, i: nat, j: nat)
    requires Trace(steps, resps, stores) && i <= j <= |steps|
    requires uid in stores[i].keys && stores[i].keys[uid].state == ACTIVE
    requires forall k :: i <= k < j ==> LeftAlone(steps, resps, uid, k)
    ensures uid in stores[j].keys && stores[j].keys[uid] == stores[i].keys[uid]
  {
    if i < j {
      UntouchedKey(steps, resps, stores, uid, i, j - 1);
      assert LeftAlone(steps, resps, uid, j - 1);
      assert ItemEffect(steps[j - 1].item, resps[j - 1], steps[j - 1].o, stores[j - 1], stores[j]);
      assert RecordEffect(steps[j - 1].item, resps[j - 1], uid, stores[j - 1].keys[uid], stores[j].keys[uid]);
    }
  }

  /** Records sit under their own uid throughout a run. */
  lemma {:induction false} TraceKeyed(steps: seq<Step>, resps: seq<ItemResponse>, stores: seq<Store>, i: nat)
    requires Trace(steps, resps, stores) && i <= |steps|
    ensures Keyed(stores[i])
  {
    if i > 0 {
      TraceKeyed(steps, resps, stores, i - 1);
      assert ItemEffect(steps[i - 1].item, resps[i - 1], steps[i - 1].o, stores[i - 1], stores[i]);
      forall u | u in stores[i].keys
        ensures stores[i].keys[u].uid == u
      {
        if u in stores[i - 1].keys {
          assert RecordEffect(steps[i - 1].item, resps[i - 1], u, stores[i - 1].keys[u], stores[i].keys[u]);
        }
      }
    }
  }

  /** The item asks to decrypt exactly what `sent` returned. */
  predicate DecryptsBack(item: BatchItem, sent: Body, uid: string) {
    && sent.Encrypted?
    && item.operation == Some(OpDecrypt) && item.payload.Some?
    && item.payload.value.uid == Some(uid)
    && item.payload.value.data == Some(sent.data)
    && item.payload.value.nonce == Some(sent.nonce)
  }

  /** What Encrypt returned decrypts to the original plaintext after any number of
      further items, as long as the key was not rekeyed, revoked or destroyed. */
  lemma {:induction false} DecryptInvertsEncrypt(su: Suite, b: Backend, steps: seq<Step>, i: nat, j: nat, uid: string)
    requires EmptyBackend(b) && Lawful(su) && DistinctSteps(steps) && i < j < |steps|
    requires var resps := Run(su, b, steps).1;
      && Did(steps[i].item, resps[i], OpEncrypt, uid)
      && (forall k :: i < k < j ==> LeftAlone(steps, resps, uid, k))
      && DecryptsBack(steps[j].item, resps[i].body, uid)
    ensures steps[i].item.payload.value.data.Some?
    ensures Run(su, b, steps).1[j] == Success(OpDecrypt, Decrypted(uid, steps[i].item.payload.value.data.value))
  {
    SameResponses(su, b, steps);
    RunIsTrace(su, steps);
    var resps, stores := Run(su, Mem(EMPTY_STORE), steps).1, Stores(su, steps);
    assert AnsweredAt(su, steps, i) && AnsweredAt(su, steps, j);
    KeyForDecrypt(su, steps, resps, stores, i, j, uid);
    TraceKeyed(steps, resps, stores, j);
    DecryptOutcome(su, stores[j], steps[j], uid);
  }

  lemma KeyForDecrypt(su: Suite, steps: seq<Step>, resps: seq<ItemResponse>, stores: seq<Store>, i: nat, j: nat, uid: string)
    requires Trace(steps, resps, stores) && i < j <= |steps|
    requires resps[i] == ProcessItem(su, Mem(stores[i]), steps[i].item, steps[i].clientCN, steps[i].o).1
    requires Did(steps[i].item, resps[i], OpEncrypt, uid)
    requires forall k :: i < k < j ==> LeftAlone(steps, resps, uid, k)
    ensures steps[i].item.payload.value.data.Some? && resps[i].body.Encrypted? && |resps[i].body.nonce| == GCM_NONCE_SIZE
    ensures uid in stores[j].keys && stores[j].keys[uid].state == ACTIVE
    ensures stores[j].keys[uid].objectType == SYMMETRIC_KEY && ValidAesKey(stores[j].keys[uid].material)
    ensures resps[i].body.data == su.seal(stores[j].keys[uid].material, resps[i].body.nonce, steps[i].item.payload.value.data.value)
  {
    EncryptOutcome(su, stores[i], steps[i], uid);
    assert LeftAlone(steps, resps, uid, i);
    UntouchedKey(steps, resps, stores, uid, i, j);
  }

  lemma EncryptOutcome(su: Suite, st: Store, s: Step, uid: string)
    requires Did(s.item, ProcessItem(su, Mem(st), s.item, s.clientCN, s.o).1, OpEncrypt, uid)
    ensures Live(st, uid) && s.item.payload.value.data.Some?
    ensures var rec, body := st.keys[uid], ProcessItem(su, Mem(st), s.item, s.clientCN, s.o).1.body;
      && rec.state == ACTIVE && rec.objectType == SYMMETRIC_KEY && ValidAesKey(rec.material)
      && body.Encrypted? && |body.nonce| == 12
      && (forall k :: 0 <= k < 12 ==> body.nonce[k] == if s.o.first.entropy.Some? then s.o.first.entropy.value(k) else 0)
      && body.data == su.seal(rec.material, body.nonce, s.item.payload.value.data.value)
  {
    assert Start(s.item, s.clientCN, s.o) == Ask(Get(uid));
  }

  lemma DecryptOutcome(su: Suite, st: Store, s: Step, uid: string)
    requires s.item.operation == Some(OpDecrypt) && HasUid(s.item.payload) && s.item.payload.value.uid == Some(uid)
    requires s.item.payload.value.data.Some? && s.item.payload.value.nonce.Some?
    requires Keyed(st) && uid in st.keys && st.keys[uid].state == ACTIVE
    requires st.keys[uid].objectType == SYMMETRIC_KEY && ValidAesKey(st.keys[uid].material)
    requires |s.item.payload.value.nonce.value| == GCM_NONCE_SIZE
    ensures var plain := su.open(st.keys[uid].material, s.item.payload.value.nonce.value, s.item.payload.value.data.value);
      ProcessItem(su, Mem(st), s.item, s.clientCN, s.o).1
        == if plain.Some? then Success(OpDecrypt, Decrypted(uid, plain.value)) else Failure(Some(OpDecrypt), REASON_CRYPTOGRAPHIC_FAILURE)
  {
    assert Start(s.item, s.clientCN, s.o) == Ask(Get(uid));
  }

  /** A call adds no uid but the one generated for it. */
  lemma OtherUidsStayFree(su: Suite, st: Store, c: Call, e: Env, uid: string)
    requires uid !in st.keys && uid != e.uid
    ensures uid !in MemStep(su, st, c, e).0.keys
  {
  }

  /** One item on matching backends: equal responses, matching backends. */
  lemma ItemMatches(su: Suite, m: Backend, s: Backend, item: BatchItem, clientCN: string, o: Oracle)
    requires Matching(m, s) && FreshItem(m.st, o)
    ensures ProcessItem(su, m, item, clientCN, o).1 == ProcessItem(su, s, item, clientCN, o).1
    ensures Matching(ProcessItem(su, m, item, clientCN, o).0, ProcessItem(su, s, item, clientCN, o).0)
  {
    var plan := Start(item, clientCN, o);
    if plan.Ask? {
      InvokeMatches(su, m, s, plan.call, o.first);
      var (m1, r1) := Invoke(su, m, plan.call, o.first);
      var s1 := Invoke(su, s, plan.call, o.first).0;
      var next := Continue(su, item, clientCN, o, r1);
      if next.Ask? {
        OtherUidsStayFree(su, m.st, plan.call, o.first, o.second.uid);
        InvokeMatches(su, m1, s1, next.call, o.second);
      }
    }
  }

  /** A KMIP client cannot tell the backends apart: every run gets the same responses. */
  lemma {:induction false} RunsMatch(su: Suite, steps: seq<Step>)
    requires DistinctSteps(steps)
    ensures Run(su, Mem(EMPTY_STORE), steps).1 == Run(su, Sql(EMPTY_DATABASE), steps).1
    ensures Matching(Run(su, Mem(EMPTY_STORE), steps).0, Run(su, Sql(EMPTY_DATABASE), steps).0)
  {
    if steps != [] {
      var n := |steps| - 1;
      RunsMatch(su, steps[..n]);
      RunInMemory(su, steps[..n]);
      var m, s := Run(su, Mem(EMPTY_STORE), steps[..n]).0, Run(su, Sql(EMPTY_DATABASE), steps[..n]).0;
      FreshAfter(steps, m.st, n);
      ItemMatches(su, m, s, steps[n].item, steps[n].clientCN, steps[n].o);
    }
  }

  /** Either store, empty. */
  predicate EmptyBackend(b: Backend) {
    b == Mem(EMPTY_STORE) || b == Sql(EMPTY_DATABASE)
  }

  lemma SameResponses(su: Suite, b: Backend, steps: seq<Step>)
    requires EmptyBackend(b) && DistinctSteps(steps)
    ensures Run(su, b, steps).1 == Run(su, Mem(EMPTY_STORE), steps).1
  {
    RunsMatch(su, steps);
  }

  /** The store holds the key in this state. */
  ghost predicate InState(b: Backend, uid: string, state: KeyState) {
    match b
    case Mem(st) => uid in st.keys && st.keys[uid].state == state
    case Sql(db) => exists r :: r in db.keys && r.uid == uid && r.state == state
  }

  lemma MatchingStates(m: Backend, s: Backend, uid: string, state: KeyState)
    requires Matching(m, s)
    ensures InState(m, uid, state) <==> InState(s, uid, state)
  {
    if InState(s, uid, state) {
      var r :| r in s.db.keys && r.uid == uid && r.state == state;
      var i :| 0 <= i < |s.db.keys| && s.db.keys[i] == r;
      assert m.st.keys[uid] == r;
    }
    if InState(m, uid, state) {
      assert m.st.keys[uid] in s.db.keys;
    }
  }

  /** The run of the first items ends in the store the whole run passes through there. */
  lemma {:induction false} StoreAt(su: Suite, steps: seq<Step>, i: nat)
    requires DistinctSteps(steps) && i <= |steps|
    ensures Run(su, Mem(EMPTY_STORE), steps[..i]).0 == Mem(Stores(su, steps)[i])
  {
    var n := |steps|;
    if i == n {
      assert steps[..n] == steps;
      RunIsTrace(su, steps);
    } else {
      StoreAt(su, steps[..n - 1], i);
      assert steps[..n - 1][..i] == steps[..i];
    }
  }

  lemma StateAt(su: Suite, b: Backend, steps: seq<Step>, uid: string, i: nat, state: KeyState)
    requires EmptyBackend(b) && DistinctSteps(steps) && i <= |steps|
    ensures InState(Run(su, b, steps[..i]).0, uid, state) <==> InState(Mem(Stores(su, steps)[i]), uid, state)
  {
    StoreAt(su, steps, i);
    RunsMatch(su, steps[..i]);
    MatchingStates(Run(su, Mem(EMPTY_STORE), steps[..i]).0, Run(su, Sql(EMPTY_DATABASE), steps[..i]).0, uid, state);
  }

  /** Over any stretch of a run, on either store, a key is never lost, every change of
      its state raises its rank, and it never leaves the four ranked states. */
  lemma RankRises(su: Suite, b: Backend, steps: seq<Step>, uid: string, i: nat, j: nat, before: KeyState) returns (after: KeyState)
    requires EmptyBackend(b) && DistinctSteps(steps) && i <= j <= |steps|
    requires InState(Run(su, b, steps[..i]).0, uid, before)
    ensures forall state :: InState(Run(su, b, steps[..j]).0, uid, state) <==> state == after
    ensures 0 <= Rank(before) <= Rank(after) && (before != after ==> Rank(before) < Rank(after))
  {
    StateAt(su, b, steps, uid, i, before);
    RankRisesInMemory(su, steps, uid, i, j);
    after := Stores(su, steps)[j].keys[uid].state;
    forall state
      ensures InState(Run(su, b, steps[..j]).0, uid, state) <==> state == after
    {
      StateAt(su, b, steps, uid, j, state);
    }
  }
}
