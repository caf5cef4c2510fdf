/** Custom attributes over KMIP runs: what the store holds is what the last successful
    AddAttribute, ModifyAttribute or DeleteAttribute item made of it. */
module ItemAttributes {
  import opened KeyTypes
  import opened StoreModel
  import opened SqlModel
  import opened Backends
  import opened Storage
  import opened Kmip
  import opened Lifecycle
  import opened Answers
  import opened Attributes

  /** The item names this attribute of this key, in an operation that writes it. */
  predicate WritesItem(item: BatchItem, uid: string, name: string) {
    && item.operation in {Some(OpAddAttribute), Some(OpModifyAttribute), Some(OpDeleteAttribute)}
    && item.payload.Some? && item.payload.value.uid == Some(uid)
    && item.payload.value.attribute.Some? && item.payload.value.attribute.value.name == Some(name)
  }

  /** The value the item leaves: none for a deletion. */
  function ValueGiven(item: BatchItem): Option<string> {
    if item.operation == Some(OpDeleteAttribute) || item.payload.None? || item.payload.value.attribute.None? then None
    else item.payload.value.attribute.value.value
  }

  /** The value given by the last successful write among the first `i` items. */
  function LastItemWrite(steps: seq<Step>, resps: seq<ItemResponse>, uid: string, name: string, i: nat): Option<string>
    requires i <= |steps| <= |resps|
  {
    if i == 0 then None
    else if WritesItem(steps[i - 1].item, uid, name) && resps[i - 1].Success? then ValueGiven(steps[i - 1].item)
    else LastItemWrite(steps, resps, uid, name, i - 1)
  }

  predicate IsAttributeOp(op: Operation) {
    op in {OpAddAttribute, OpModifyAttribute, OpDeleteAttribute}
  }

  /** Nothing is missing: a uid, an attribute, its name and, unless it is deleted, its value. */
  predicate Complete(item: BatchItem) {
    && item.payload.Some? && item.payload.value.uid.Some? && item.payload.value.attribute.Some?
    && item.payload.value.attribute.value.name.Some?
    && (item.operation == Some(OpDeleteAttribute) || item.payload.value.attribute.value.value.Some?)
  }

  /** An attribute item as the one storage call it makes. */
  lemma AttributeOutcome(su: Suite, st: Store, s: Step)
    requires s.item.operation.Some? && IsAttributeOp(s.item.operation.value)
    ensures var (b', resp) := ProcessItem(su, Mem(st), s.item, s.clientCN, s.o);
      var op := s.item.operation.value;
      if !Complete(s.item) then b' == Mem(st) && resp == Failure(Some(op), 0x06)
      else
        var uid, a := s.item.payload.value.uid.value, s.item.payload.value.attribute.value;
        if !(uid in st.keys && st.keys[uid].state != 5) then b' == Mem(st) && resp == Failure(Some(op), 0x100)
        else
          && resp == Success(op, Uid(uid))
          && b' == Mem(if op == OpDeleteAttribute then MemDeleteAttr(st, uid, a.name.value) else MemSetAttr(st, uid, a.name.value, a.value.value))
  {
    AttributeStart(s);
  }

  lemma AttributeStart(s: Step)
    requires s.item.operation.Some? && IsAttributeOp(s.item.operation.value)
    ensures Start(s.item, s.clientCN, s.o) ==
      if !Complete(s.item) then Answer(Failure(s.item.operation, 0x06))
      else
        var uid, a := s.item.payload.value.uid.value, s.item.payload.value.attribute.value;
        Ask(if s.item.operation == Some(OpDeleteAttribute) then DeleteCustomAttribute(uid, a.name.value)
            else SetCustomAttribute(uid, a.name.value, a.value.value))
  {
  }

  /** No other item touches an attribute. */
  lemma OthersKeepAttributes(su: Suite, st: Store, s: Step)
    requires s.item.operation.Some? ==> !IsAttributeOp(s.item.operation.value)
    ensures var b' := ProcessItem(su, Mem(st), s.item, s.clientCN, s.o).0; b'.Mem? && b'.st.attrs == st.attrs
  {
    var plan := Start(s.item, s.clientCN, s.o);
    if plan.Ask? {
      FirstCallNoAttribute(s);
      CallKeepsAttributes(su, st, plan.call, s.o.first);
      var (st1, r1) := MemStep(su, st, plan.call, s.o.first);
      var next := Continue(su, s.item, s.clientCN, s.o, r1);
      if next.Ask? {
        SecondCallNoAttribute(su, s, r1);
        CallKeepsAttributes(su, st1, next.call, s.o.second);
      }
    }
  }

  predicate NoAttributeWrite(c: Call) {
    !c.SetCustomAttribute? && !c.DeleteCustomAttribute?
  }

  lemma CallKeepsAttributes(su: Suite, st: Store, c: Call, e: Env)
    requires NoAttributeWrite(c)
    ensures MemStep(su, st, c, e).0.attrs == st.attrs
  {
  }

  lemma FirstCallNoAttribute(s: Step)
    requires s.item.operation.Some? ==> !IsAttributeOp(s.item.operation.value)
    requires Start(s.item, s.clientCN, s.o).Ask?
    ensures NoAttributeWrite(Start(s.item, s.clientCN, s.o).call)
  {
  }

  lemma SecondCallNoAttribute(su: Suite, s: Step, r: Reply)
    requires Start(s.item, s.clientCN, s.o).Ask? && Continue(su, s.item, s.clientCN, s.o, r).Ask?
    ensures NoAttributeWrite(Continue(su, s.item, s.clientCN, s.o, r).call)
  {
  }

  lemma ItemAttributeStep(su: Suite, st: Store, s: Step, uid: string, name: string)
    ensures var (b', resp) := ProcessItem(su, Mem(st), s.item, s.clientCN, s.o);
      && b'.Mem?
      && ValueOf(AttrsOf(b'.st, uid), name) ==
           if WritesItem(s.item, uid, name) && resp.Success? then ValueGiven(s.item) else ValueOf(AttrsOf(st, uid), name)
  {
    if s.item.operation.Some? && IsAttributeOp(s.item.operation.value) {
      AttributeOutcome(su, st, s);
    } else {
      OthersKeepAttributes(su, st, s);
    }
  }

  lemma {:induction false} StoredByItems(su: Suite, steps: seq<Step>, uid: string, name: string, i: nat)
    requires DistinctSteps(steps) && i <= |steps|
    ensures ValueOf(AttrsOf(Stores(su, steps)[i], uid), name) == LastItemWrite(steps, Run(su, Mem(EMPTY_STORE), steps).1, uid, name, i)
  {
    RunIsTrace(su, steps);
    if i > 0 {
      StoredByItems(su, steps, uid, name, i - 1);
      assert AnsweredAt(su, steps, i - 1);
      ItemAttributeStep(su, Stores(su, steps)[i - 1], steps[i - 1], uid, name);
    }
  }

  /** The custom attributes of a key after a run, read from either store: for every name
      the value of the last successful item that wrote it. */
  lemma AttributesByItems(su: Suite, b: Backend, steps: seq<Step>, uid: string, name: string, e: Env)
    requires EmptyBackend(b) && DistinctSteps(steps)
    ensures var (end, resps) := Run(su, b, steps);
      var reply := Invoke(su, end, GetCustomAttributes(uid), e).1;
      if Made(steps, resps, uid, |steps|) && Successes(steps, resps, OpDestroy, uid, |steps|) == 0
      then reply.Attributes? && ValueOf(reply.attrs, name) == LastItemWrite(steps, resps, uid, name, |steps|)
      else reply.Failed?
  {
    SameResponses(su, b, steps);
    RunsMatch(su, steps);
    RunIsTrace(su, steps);
    var n := |steps|;
    var m, s := Run(su, Mem(EMPTY_STORE), steps).0, Run(su, Sql(EMPTY_DATABASE), steps).0;
    ReadSimulated(su, m.st, s.db, GetCustomAttributes(uid), e);
    StoredByItems(su, steps, uid, name, n);
    StoredIffMade(su, steps, uid, n);
    if uid in Stores(su, steps)[n].keys {
      PhaseFits(su, steps, uid, n, Stores(su, steps)[n].keys[uid]);
    }
  }

  /** When an attribute item succeeds, and why it fails. */
  lemma AttributeAnswered(su: Suite, b: Backend, steps: seq<Step>, i: nat, op: Operation)
    requires EmptyBackend(b) && DistinctSteps(steps) && i < |steps| && steps[i].item.operation == Some(op) && IsAttributeOp(op)
    ensures var resps, uid := Run(su, b, steps).1, UidNamed(steps[i].item);
      resps[i] ==
        if !Complete(steps[i].item) then Failure(Some(op), 0x06)
        else if !Made(steps, resps, uid, i) || Successes(steps, resps, OpDestroy, uid, i) > 0 then Failure(Some(op), 0x100)
        else Success(op, Uid(uid))
  {
    SameResponses(su, b, steps);
    AnsweredInRun(su, steps, i);
    var uid := UidNamed(steps[i].item);
    AttributeOutcome(su, Stores(su, steps)[i], steps[i]);
    StoredIffMade(su, steps, uid, i);
    if uid in Stores(su, steps)[i].keys {
      PhaseFits(su, steps, uid, i, Stores(su, steps)[i].keys[uid]);
    }
  }
}
