/** What every batch item is answered, told from outside: from the payload, from the
    responses the run has given so far, and from the numbers of KMIP 1.4. */
module Answers {
  import opened KeyTypes
  import opened StoreModel
  import opened SqlModel
  import opened Storage
  import opened Kmip
  import opened Lifecycle

  /** The response tells the client that it made the key `uid`. */
  predicate Reports(item: BatchItem, resp: ItemResponse, uid: string) {
    && resp.Success? && item.operation.Some?
    && match item.operation.value
       case OpCreate => resp.body == Object(2, uid)
       case OpRegister => resp.body == Uid(uid)
       case OpDeriveKey => resp.body == Uid(uid)
       case OpCreateKeyPair => resp.body.KeyPair? && (uid == resp.body.privateUid || uid == resp.body.publicUid)
       case _ => false
  }

  /** One of the first `i` responses reported the key. */
  function Made(steps: seq<Step>, resps: seq<ItemResponse>, uid: string, i: nat): bool
    requires i <= |steps| <= |resps|
  {
    i > 0 && (Made(steps, resps, uid, i - 1) || Reports(steps[i - 1].item, resps[i - 1], uid))
  }

  /** Where a key is in its life, by the responses alone. */
  datatype Phase = Unknown | Fresh | Usable | Revoked | Gone

  function PhaseAt(steps: seq<Step>, resps: seq<ItemResponse>, uid: string, i: nat): Phase
    requires i <= |steps| <= |resps|
  {
    if !Made(steps, resps, uid, i) then Unknown
    else if Successes(steps, resps, OpDestroy, uid, i) > 0 then Gone
    else if Successes(steps, resps, OpRevoke, uid, i) > 0 then Revoked
    else if Successes(steps, resps, OpActivate, uid, i) > 0 then Usable
    else Fresh
  }

  function StateCode(phase: Phase): int {
    match phase
    case Unknown => 0
    case Fresh => 1
    case Usable => 2
    case Revoked => 4
    case Gone => 5
  }

  /** Operations on a key that exists already. */
  predicate KeyOp(op: Operation) {
    op in {OpActivate, OpRevoke, OpDestroy, OpArchive, OpRecover, OpReKey, OpEncrypt, OpDecrypt, OpSign, OpSignatureVerify, OpMAC,
           OpGet, OpCheck, OpGetAttributes, OpGetAttributeList, OpObtainLease}
  }

  predicate Crypto(op: Operation) {
    op in {OpEncrypt, OpDecrypt, OpSign, OpSignatureVerify, OpMAC}
  }

  /** The payload lacks something the operation cannot do without. */
  predicate Lacking(op: Operation, p: Option<Payload>) {
    || p.None? || p.value.uid.None?
    || (Crypto(op) && p.value.data.None?)
    || (op == OpDecrypt && p.value.nonce.None?)
    || (op == OpSignatureVerify && p.value.signature.None?)
  }

  /** What the lifecycle allows on a key that is neither unknown nor gone. */
  predicate Permitted(op: Operation, phase: Phase) {
    if op == OpActivate then phase == Fresh
    else if op == OpRevoke then phase == Fresh || phase == Usable
    else if op == OpArchive || op == OpRecover then false
    else if op == OpReKey || Crypto(op) then phase == Usable
    else true
  }

  predicate AesSized(material: bytes) {
    |material| in {16, 24, 32}
  }

  /** Twelve bytes from the random source, or twelve zeros if it fails. */
  predicate IsNonce(nonce: bytes, o: Oracle) {
    |nonce| == 12 && forall i :: 0 <= i < 12 ==> nonce[i] == if o.first.entropy.Some? then o.first.entropy.value(i) else 0
  }

  /** The answer to a use of a key that may be used. */
  ghost predicate UseAnswered(su: Suite, op: Operation, p: Payload, rec: KeyRecord, o: Oracle, resp: ItemResponse)
    requires Crypto(op) && !Lacking(op, Some(p))
  {
    var wanted := if op == OpSign then 4 else if op == OpSignatureVerify then 3 else 2;
    if rec.objectType != wanted then resp == Failure(Some(op), 0x07)
    else
      match op
      case OpEncrypt =>
        if !AesSized(rec.material) then resp == Failure(Some(op), 0x0A)
        else exists nonce: bytes :: IsNonce(nonce, o) && resp == Success(op, Encrypted(rec.uid, su.seal(rec.material, nonce, p.data.value), nonce))
      case OpDecrypt =>
        if !AesSized(rec.material) then resp == Failure(Some(op), 0x0A)
        else if |p.nonce.value| != 12 then resp == Failure(Some(op), 0x07)
        else (match su.open(rec.material, p.nonce.value, p.data.value)
              case None => resp == Failure(Some(op), 0x0A)
              case Some(plain) => resp == Success(op, Decrypted(rec.uid, plain)))
      case OpSign =>
        (match su.sign(rec.material, p.data.value, o.seed)
         case None => resp == Failure(Some(op), 0x0A)
         case Some(signature) => resp == Success(op, Signed(rec.uid, signature)))
      case OpSignatureVerify =>
        (match su.verify(rec.material, p.data.value, p.signature.value)
         case None => resp == Failure(Some(op), 0x0A)
         case Some(valid) => resp == Success(op, Verified(rec.uid, if valid then 0 else 1)))
      case OpMAC => resp == Success(op, Maced(rec.uid, su.mac(rec.material, p.data.value)))
  }

  /** The answer to an operation that is not cryptographic, on a key it is allowed on. */
  function Granted(op: Operation, phase: Phase, rec: KeyRecord, o: Oracle): ItemResponse {
    if op == OpReKey && !(1 <= rec.length <= 32768 && o.second.entropy.Some?) then Failure(Some(op), 0x100)
    else
      Success(op,
        if op == OpGet then
          if rec.objectType == 1 then Certificate(1, rec.uid, rec.material)
          else Key(rec.objectType, rec.uid, rec.material, rec.algorithm, rec.length)
        else if op == OpGetAttributes then
          AttributesOf(rec.uid, rec.name, rec.objectType, rec.algorithm, rec.length, rec.usageMask, StateCode(phase), rec.createdAt / 1_000_000_000)
        else if op == OpGetAttributeList then AttributeNames(rec.uid)
        else if op == OpObtainLease then Lease(rec.uid, 3600)
        else Uid(rec.uid))
  }

  /** The response an operation on a key is due, whichever way it goes. */
  ghost predicate Due(su: Suite, op: Operation, p: Option<Payload>, phase: Phase, rec: KeyRecord, o: Oracle, resp: ItemResponse)
    requires KeyOp(op)
  {
    if Lacking(op, p) then resp == Failure(Some(op), 0x06)
    else if phase == Unknown || phase == Gone then resp == Failure(Some(op), 0x01)
    else if !Permitted(op, phase) then resp == Failure(Some(op), 0x0B)
    else if Crypto(op) then UseAnswered(su, op, p.value, rec, o, resp)
    else resp == Granted(op, phase, rec, o)
  }

  /** The store is in step with the phase of the key. */
  ghost predicate Fits(st: Store, uid: string, phase: Phase, rec: KeyRecord) {
    if phase == Unknown then uid !in st.keys
    else uid in st.keys && st.keys[uid] == rec && rec.uid == uid && rec.state == StateCode(phase)
  }

  lemma LackingAnswer(item: BatchItem, clientCN: string, o: Oracle, op: Operation)
    requires KeyOp(op) && item.operation == Some(op) && Lacking(op, item.payload)
    ensures Start(item, clientCN, o) == Answer(Failure(Some(op), 0x06))
  {
  }

  lemma StartsWithLookup(item: BatchItem, clientCN: string, o: Oracle, op: Operation)
    requires KeyOp(op) && item.operation == Some(op) && !Lacking(op, item.payload)
    ensures var uid := item.payload.value.uid.value;
      Start(item, clientCN, o) == Ask(if op == OpGetAttributes then GetAttributes(uid) else Get(uid))
  {
  }

  /** The first lookup of an item and what follows it. */
  lemma LookedUp(su: Suite, st: Store, item: BatchItem, clientCN: string, o: Oracle, op: Operation)
    requires KeyOp(op) && item.operation == Some(op) && !Lacking(op, item.payload)
    ensures var uid := item.payload.value.uid.value;
      if !Live(st, uid) then ProcessItem(su, Mem(st), item, clientCN, o).1 == Failure(Some(op), 0x01)
      else
        match AfterLookup(su, op, item.payload.value, st.keys[uid], o)
        case Answer(resp) => ProcessItem(su, Mem(st), item, clientCN, o).1 == resp
        case Ask(c) => ProcessItem(su, Mem(st), item, clientCN, o).1 == Finish(item, Found(st.keys[uid]), MemStep(su, st, c, o.second).1)
  {
    StartsWithLookup(item, clientCN, o, op);
  }

  /** The gate in terms of phases. */
  lemma GateByPhase(op: Operation, phase: Phase)
    requires KeyOp(op) && phase != Unknown && phase != Gone
    ensures ValidateStateTransition(StateCode(phase), op) == if Permitted(op, phase) then None else Some(0x0B)
  {
  }

  lemma UseDue(su: Suite, op: Operation, p: Payload, rec: KeyRecord, o: Oracle)
    requires Crypto(op) && !Lacking(op, Some(p))
    ensures UseAnswered(su, op, p, rec, o, Use(su, op, p, rec, o))
  {
    if op == OpEncrypt {
      var nonce := if o.first.entropy.Some? then RandomBytes(o.first.entropy.value, 12) else Zeros(12);
      assert IsNonce(nonce, o);
    }
  }

  lemma ChangeDue(su: Suite, st: Store, item: BatchItem, op: Operation, phase: Phase, rec: KeyRecord, o: Oracle)
    requires op in {OpActivate, OpRevoke, OpDestroy, OpReKey} && item.operation == Some(op) && !Lacking(op, item.payload)
    requires phase != Unknown && phase != Gone && Fits(st, item.payload.value.uid.value, phase, rec)
    ensures Finish(item, Found(rec), MemStep(su, st, TransitionCall(op, item.payload.value), o.second).1) == Granted(op, phase, rec, o)
  {
  }

  lemma GateOpen(su: Suite, st: Store, item: BatchItem, clientCN: string, o: Oracle, op: Operation, phase: Phase, rec: KeyRecord)
    requires KeyOp(op) && item.operation == Some(op) && !Lacking(op, item.payload)
    requires phase != Unknown && phase != Gone && Permitted(op, phase) && Fits(st, item.payload.value.uid.value, phase, rec)
    ensures var resp, p := ProcessItem(su, Mem(st), item, clientCN, o).1, item.payload.value;
      if Crypto(op) then resp == Use(su, op, p, rec, o)
      else if op in {OpActivate, OpRevoke, OpDestroy, OpReKey} then
        resp == Finish(item, Found(rec), MemStep(su, st, TransitionCall(op, p), o.second).1)
      else resp == Granted(op, phase, rec, o)
  {
    LookedUp(su, st, item, clientCN, o, op);
    GateByPhase(op, phase);
  }

  lemma AllowedDue(su: Suite, st: Store, item: BatchItem, clientCN: string, o: Oracle, op: Operation, phase: Phase, rec: KeyRecord)
    requires KeyOp(op) && item.operation == Some(op) && !Lacking(op, item.payload)
    requires phase != Unknown && phase != Gone && Permitted(op, phase) && Fits(st, item.payload.value.uid.value, phase, rec)
    ensures Due(su, op, item.payload, phase, rec, o, ProcessItem(su, Mem(st), item, clientCN, o).1)
  {
    GateOpen(su, st, item, clientCN, o, op, phase, rec);
    if Crypto(op) {
      UseDue(su, op, item.payload.value, rec, o);
    } else if op in {OpActivate, OpRevoke, OpDestroy, OpReKey} {
      ChangeDue(su, st, item, op, phase, rec, o);
    }
  }

  /** An item on a key is answered what it is due. */
  lemma ItemDue(su: Suite, st: Store, item: BatchItem, clientCN: string, o: Oracle, op: Operation, phase: Phase, rec: KeyRecord)
    requires KeyOp(op) && item.operation == Some(op)
    requires !Lacking(op, item.payload) ==> Fits(st, item.payload.value.uid.value, phase, rec)
    ensures Due(su, op, item.payload, phase, rec, o, ProcessItem(su, Mem(st), item, clientCN, o).1)
  {
    if Lacking(op, item.payload) {
      LackingAnswer(item, clientCN, o, op);
    } else if phase == Unknown || phase == Gone {
      LookedUp(su, st, item, clientCN, o, op);
    } else if Permitted(op, phase) {
      AllowedDue(su, st, item, clientCN, o, op, phase, rec);
    } else {
      LookedUp(su, st, item, clientCN, o, op);
      GateByPhase(op, phase);
    }
  }

  /** Exactly these keys were added. */
  ghost predicate Adds(st: Store, st': Store, item: BatchItem, resp: ItemResponse) {
    forall u :: u in st'.keys <==> u in st.keys || Reports(item, resp, u)
  }

  /** Create, Register and DeriveKey make one storage call and report its record. */
  lemma OneCallAdds(su: Suite, st: Store, item: BatchItem, clientCN: string, o: Oracle)
    requires item.operation in {Some(OpCreate), Some(OpRegister), Some(OpDeriveKey)} && Start(item, clientCN, o).Ask?
    ensures var (b', resp) := ProcessItem(su, Mem(st), item, clientCN, o); b'.Mem? && Adds(st, b'.st, item, resp)
  {
    var c := Start(item, clientCN, o).call;
    assert c.Create? || c.Register? || c.DeriveKey?;
    var (st', r) := MemStep(su, st, c, o.first);
    CreatedBy(su, st, c, o.first);
  }

  lemma CreatedBy(su: Suite, st: Store, c: Call, e: Env)
    requires c.Create? || c.Register? || c.DeriveKey?
    ensures var (st', r) := MemStep(su, st, c, e);
      if r.Found? then st'.keys == st.keys[e.uid := r.rec] && r.rec.uid == e.uid && (c.Create? ==> r.rec.objectType == 2)
      else r.Failed? && st' == st
  {
  }

  lemma PairAdds(su: Suite, st: Store, item: BatchItem, clientCN: string, o: Oracle)
    requires item.operation == Some(OpCreateKeyPair) && Start(item, clientCN, o).Ask?
    ensures var (b', resp) := ProcessItem(su, Mem(st), item, clientCN, o); b'.Mem? && Adds(st, b'.st, item, resp)
  {
    PairCreated(su, st, item, clientCN, o);
  }

  /** Other items add no key. */
  lemma OthersAddNothing(su: Suite, st: Store, item: BatchItem, clientCN: string, o: Oracle)
    requires item.operation !in {Some(OpCreate), Some(OpRegister), Some(OpDeriveKey), Some(OpCreateKeyPair)}
    requires Start(item, clientCN, o).Ask?
    ensures var b' := ProcessItem(su, Mem(st), item, clientCN, o).0; b'.Mem? && b'.st.keys.Keys == st.keys.Keys
  {
    var op := item.operation.value;
    if IsTransition(op) {
      TransitionOutcome(su, st, item, clientCN, o);
      var p := item.payload.value;
      if Live(st, p.uid.value) && ValidateStateTransition(st.keys[p.uid.value].state, op).None? {
        ChangeOutcome(su, st, op, p, o.second);
      }
    } else if IsLookup(Start(item, clientCN, o).call) {
      LookupAnswers(su, st, item, clientCN, o);
    } else {
      OtherCall(su, st, item, clientCN, o);
    }
  }

  lemma OtherCall(su: Suite, st: Store, item: BatchItem, clientCN: string, o: Oracle)
    requires item.operation !in {Some(OpCreate), Some(OpRegister), Some(OpDeriveKey), Some(OpCreateKeyPair)}
    requires Start(item, clientCN, o).Ask? && !IsLookup(Start(item, clientCN, o).call)
    ensures var b' := ProcessItem(su, Mem(st), item, clientCN, o).0; b'.Mem? && b'.st.keys == st.keys
  {
    var c := Start(item, clientCN, o).call;
    assert c.Locate? || c.SetCustomAttribute? || c.DeleteCustomAttribute?;
    assert Continue(su, item, clientCN, o, MemStep(su, st, c, o.first).1).Answer?;
  }

  lemma AnswerAddsNothing(su: Suite, st: Store, item: BatchItem, clientCN: string, o: Oracle)
    requires Start(item, clientCN, o).Answer?
    ensures var (b', resp) := ProcessItem(su, Mem(st), item, clientCN, o); b' == Mem(st) && forall u :: !Reports(item, resp, u)
  {
  }

  lemma ItemAdds(su: Suite, st: Store, item: BatchItem, clientCN: string, o: Oracle)
    ensures var (b', resp) := ProcessItem(su, Mem(st), item, clientCN, o); b'.Mem? && Adds(st, b'.st, item, resp)
  {
    if Start(item, clientCN, o).Answer? {
      AnswerAddsNothing(su, st, item, clientCN, o);
    } else if item.operation in {Some(OpCreate), Some(OpRegister), Some(OpDeriveKey)} {
      OneCallAdds(su, st, item, clientCN, o);
    } else if item.operation == Some(OpCreateKeyPair) {
      PairAdds(su, st, item, clientCN, o);
    } else {
      OthersAddNothing(su, st, item, clientCN, o);
    }
  }

  /** The store holds exactly the keys the responses reported. */
  lemma {:induction false} StoredIffMade(su: Suite, steps: seq<Step>, uid: string, i: nat)
    requires DistinctSteps(steps) && i <= |steps|
    ensures uid in Stores(su, steps)[i].keys <==> Made(steps, Run(su, Mem(EMPTY_STORE), steps).1, uid, i)
  {
    RunIsTrace(su, steps);
    if i > 0 {
      var k := i - 1;
      StoredIffMade(su, steps, uid, k);
      assert AnsweredAt(su, steps, k);
      ItemAdds(su, Stores(su, steps)[k], steps[k].item, steps[k].clientCN, steps[k].o);
    }
  }

  /** The phase the responses tell is the phase the store is in. */
  lemma PhaseFits(su: Suite, steps: seq<Step>, uid: string, i: nat, rec: KeyRecord)
    requires DistinctSteps(steps) && i <= |steps|
    requires uid in Stores(su, steps)[i].keys ==> rec == Stores(su, steps)[i].keys[uid]
    ensures Fits(Stores(su, steps)[i], uid, PhaseAt(steps, Run(su, Mem(EMPTY_STORE), steps).1, uid, i), rec)
  {
    RunIsTrace(su, steps);
    StoredIffMade(su, steps, uid, i);
    HistoryConsistent(steps, Run(su, Mem(EMPTY_STORE), steps).1, Stores(su, steps), uid, i);
    TraceKeyed(steps, Run(su, Mem(EMPTY_STORE), steps).1, Stores(su, steps), i);
  }

  /** Which record a store holds at step `i`, on either backend. */
  lemma HeldIs(su: Suite, b: Backend, steps: seq<Step>, i: nat, rec: KeyRecord)
    requires EmptyBackend(b) && DistinctSteps(steps) && i <= |steps|
    ensures Holds(Run(su, b, steps[..i]).0, rec) <==> rec.uid in Stores(su, steps)[i].keys && Stores(su, steps)[i].keys[rec.uid] == rec
  {
    StoreAt(su, steps, i);
    RunsMatch(su, steps[..i]);
    HeldAlike(Run(su, Mem(EMPTY_STORE), steps[..i]).0, Run(su, Sql(EMPTY_DATABASE), steps[..i]).0, rec);
  }

  lemma HeldAlike(m: Backend, s: Backend, rec: KeyRecord)
    requires Matching(m, s)
    ensures Holds(m, rec) <==> Holds(s, rec)
  {
    if Holds(s, rec) {
      var i :| 0 <= i < |s.db.keys| && s.db.keys[i] == rec;
    }
  }

  /** The run's response to an item, in memory. */
  lemma AnsweredInRun(su: Suite, steps: seq<Step>, i: nat)
    requires DistinctSteps(steps) && i < |steps|
    ensures Run(su, Mem(EMPTY_STORE), steps).1[i]
      == ProcessItem(su, Mem(Stores(su, steps)[i]), steps[i].item, steps[i].clientCN, steps[i].o).1
  {
    RunIsTrace(su, steps);
    assert AnsweredAt(su, steps, i);
  }

  /** The uid an item names; none is the empty string. */
  function UidNamed(item: BatchItem): string {
    if item.payload.Some? && item.payload.value.uid.Some? then item.payload.value.uid.value else ""
  }

  /** On either store, every operation on a key is answered what the history of the key,
      the record the store holds and the payload make due: success with its content, or
      the reason of the first thing that stands against it. */
  lemma AnsweredByHistory(su: Suite, b: Backend, steps: seq<Step>, i: nat, op: Operation, rec: KeyRecord)
    requires EmptyBackend(b) && DistinctSteps(steps) && i < |steps| && KeyOp(op) && steps[i].item.operation == Some(op)
    requires var resps, uid := Run(su, b, steps).1, UidNamed(steps[i].item);
      Made(steps, resps, uid, i) ==> rec.uid == uid && Holds(Run(su, b, steps[..i]).0, rec)
    ensures var resps := Run(su, b, steps).1;
      Due(su, op, steps[i].item.payload, PhaseAt(steps, resps, UidNamed(steps[i].item), i), rec, steps[i].o, resps[i])
  {
    SameResponses(su, b, steps);
    var uid := UidNamed(steps[i].item);
    StoredIffMade(su, steps, uid, i);
    HeldIs(su, b, steps, i, rec);
    PhaseFits(su, steps, uid, i, rec);
    AnsweredInRun(su, steps, i);
    ItemDue(su, Stores(su, steps)[i], steps[i].item, steps[i].clientCN, steps[i].o, op,
            PhaseAt(steps, Run(su, Mem(EMPTY_STORE), steps).1, uid, i), rec);
  }

  /** The record behind a made key. */
  lemma RecordOf(su: Suite, b: Backend, steps: seq<Step>, uid: string, i: nat) returns (rec: KeyRecord)
    requires EmptyBackend(b) && DistinctSteps(steps) && i <= |steps|
    ensures Made(steps, Run(su, b, steps).1, uid, i) ==> rec.uid == uid && Holds(Run(su, b, steps[..i]).0, rec)
  {
    SameResponses(su, b, steps);
    StoredIffMade(su, steps, uid, i);
    rec := KeyRecord(uid, "", 0, 0, 0, [], 0, 0, 0, "", 0, 0);
    if uid in Stores(su, steps)[i].keys {
      rec := Stores(su, steps)[i].keys[uid];
      PhaseFits(su, steps, uid, i, rec);
      HeldIs(su, b, steps, i, rec);
    }
  }

  /** What is due decides whether a lifecycle change succeeds. */
  lemma ChangeDueIff(su: Suite, steps: seq<Step>, resps: seq<ItemResponse>, i: nat, op: Operation, uid: string, rec: KeyRecord, resp: ItemResponse)
    requires i < |steps| <= |resps| && Asks(steps[i].item, op, uid) && op in {OpActivate, OpRevoke, OpDestroy, OpArchive, OpRecover}
    requires Due(su, op, steps[i].item.payload, PhaseAt(steps, resps, uid, i), rec, steps[i].o, resp)
    requires Made(steps, resps, uid, i) ==> rec.uid == uid
    ensures ChangeAllowed(steps, resps, op, uid, i) <==> resp == Success(op, Uid(uid))
    ensures resp.Success? ==> resp == Success(op, Uid(uid))
  {
  }

  /** By the responses so far: the key was made; for Activate it was never activated,
      revoked or destroyed; for Revoke never revoked or destroyed; for Destroy never
      destroyed. Archive and Recover are never allowed. */
  predicate ChangeAllowed(steps: seq<Step>, resps: seq<ItemResponse>, op: Operation, uid: string, i: nat)
    requires i <= |steps| <= |resps|
  {
    var activated, revoked, destroyed := Successes(steps, resps, OpActivate, uid, i), Successes(steps, resps, OpRevoke, uid, i),
                                         Successes(steps, resps, OpDestroy, uid, i);
    && Made(steps, resps, uid, i)
    && if op == OpActivate then activated == revoked == destroyed == 0
       else if op == OpRevoke then revoked == destroyed == 0
       else if op == OpDestroy then destroyed == 0
       else false
  }

  /** When a lifecycle change succeeds, by the responses before it alone. */
  lemma ChangeSucceedsIff(su: Suite, b: Backend, steps: seq<Step>, i: nat, op: Operation, uid: string)
    requires EmptyBackend(b) && DistinctSteps(steps) && i < |steps| && Asks(steps[i].item, op, uid)
    requires op in {OpActivate, OpRevoke, OpDestroy, OpArchive, OpRecover}
    ensures var resps := Run(su, b, steps).1;
      && (resps[i].Success? <==> ChangeAllowed(steps, resps, op, uid, i))
      && (resps[i].Success? ==> resps[i] == Success(op, Uid(uid)))
  {
    var resps := Run(su, b, steps).1;
    var rec := RecordOf(su, b, steps, uid, i);
    AnsweredByHistory(su, b, steps, i, op, rec);
    ChangeDueIff(su, steps, resps, i, op, uid, rec, resps[i]);
  }

  lemma ReadDueIff(su: Suite, steps: seq<Step>, resps: seq<ItemResponse>, i: nat, op: Operation, uid: string, rec: KeyRecord, resp: ItemResponse)
    requires i < |steps| <= |resps| && Asks(steps[i].item, op, uid) && op in {OpGet, OpCheck, OpGetAttributes, OpGetAttributeList, OpObtainLease}
    requires Due(su, op, steps[i].item.payload, PhaseAt(steps, resps, uid, i), rec, steps[i].o, resp)
    ensures resp.Success? <==> Made(steps, resps, uid, i) && Successes(steps, resps, OpDestroy, uid, i) == 0
  {
  }

  /** When a key may be read: any time between its making and its Destroy. */
  lemma ReadSucceedsIff(su: Suite, b: Backend, steps: seq<Step>, i: nat, op: Operation, uid: string)
    requires EmptyBackend(b) && DistinctSteps(steps) && i < |steps| && Asks(steps[i].item, op, uid)
    requires op in {OpGet, OpCheck, OpGetAttributes, OpGetAttributeList, OpObtainLease}
    ensures var resps := Run(su, b, steps).1;
      resps[i].Success? <==> Made(steps, resps, uid, i) && Successes(steps, resps, OpDestroy, uid, i) == 0
  {
    var resps := Run(su, b, steps).1;
    var rec := RecordOf(su, b, steps, uid, i);
    AnsweredByHistory(su, b, steps, i, op, rec);
    ReadDueIff(su, steps, resps, i, op, uid, rec, resps[i]);
  }

  /** Activated, and neither revoked nor destroyed since. */
  predicate InUse(steps: seq<Step>, resps: seq<ItemResponse>, uid: string, i: nat)
    requires i <= |steps| <= |resps|
  {
    && Made(steps, resps, uid, i) && Successes(steps, resps, OpActivate, uid, i) > 0
    && Successes(steps, resps, OpRevoke, uid, i) == 0 && Successes(steps, resps, OpDestroy, uid, i) == 0
  }

  /** What a use asks of the key and the payload besides. */
  predicate Meets(su: Suite, op: Operation, p: Payload, rec: KeyRecord, o: Oracle) {
    match op
    case OpEncrypt => p.data.Some? && rec.objectType == 2 && |rec.material| in {16, 24, 32}
    case OpDecrypt =>
      && p.data.Some? && p.nonce.Some? && rec.objectType == 2 && |rec.material| in {16, 24, 32} && |p.nonce.value| == 12
      && su.open(rec.material, p.nonce.value, p.data.value).Some?
    case OpSign => p.data.Some? && rec.objectType == 4 && su.sign(rec.material, p.data.value, o.seed).Some?
    case OpSignatureVerify =>
      p.data.Some? && p.signature.Some? && rec.objectType == 3 && su.verify(rec.material, p.data.value, p.signature.value).Some?
    case OpMAC => p.data.Some? && rec.objectType == 2
    case _ => 1 <= rec.length <= 32768 && o.second.entropy.Some?
  }

  lemma UseDueIff(su: Suite, steps: seq<Step>, resps: seq<ItemResponse>, i: nat, op: Operation, uid: string, rec: KeyRecord, resp: ItemResponse)
    requires i < |steps| <= |resps| && Asks(steps[i].item, op, uid)
    requires op in {OpEncrypt, OpDecrypt, OpSign, OpSignatureVerify, OpMAC, OpReKey}
    requires Due(su, op, steps[i].item.payload, PhaseAt(steps, resps, uid, i), rec, steps[i].o, resp)
    ensures resp.Success? <==> InUse(steps, resps, uid, i) && Meets(su, op, steps[i].item.payload.value, rec, steps[i].o)
  {
  }

  /** When a key may be used or rekeyed. */
  lemma UseSucceedsIff(su: Suite, b: Backend, steps: seq<Step>, i: nat, op: Operation, uid: string, rec: KeyRecord)
    requires EmptyBackend(b) && DistinctSteps(steps) && i < |steps| && Asks(steps[i].item, op, uid)
    requires op in {OpEncrypt, OpDecrypt, OpSign, OpSignatureVerify, OpMAC, OpReKey}
    requires Made(steps, Run(su, b, steps).1, uid, i) ==> rec.uid == uid && Holds(Run(su, b, steps[..i]).0, rec)
    ensures var resps := Run(su, b, steps).1;
      resps[i].Success? <==> InUse(steps, resps, uid, i) && Meets(su, op, steps[i].item.payload.value, rec, steps[i].o)
  {
    var resps := Run(su, b, steps).1;
    AnsweredByHistory(su, b, steps, i, op, rec);
    UseDueIff(su, steps, resps, i, op, uid, rec, resps[i]);
  }

  /** Every Encrypt draws its own nonce: twelve bytes of the random source in order, zeros
      only if the source fails; and seals the data with the key under that nonce. */
  lemma EncryptDrawsNonce(su: Suite, b: Backend, steps: seq<Step>, i: nat, uid: string, rec: KeyRecord)
    requires EmptyBackend(b) && DistinctSteps(steps) && i < |steps|
    requires Did(steps[i].item, Run(su, b, steps).1[i], OpEncrypt, uid)
    requires rec.uid == uid && Holds(Run(su, b, steps[..i]).0, rec)
    ensures var body := Run(su, b, steps).1[i].body;
      && body.Encrypted? && body.uid == uid && |body.nonce| == 12
      && (forall k :: 0 <= k < 12 ==> body.nonce[k] == if steps[i].o.first.entropy.Some? then steps[i].o.first.entropy.value(k) else 0)
      && steps[i].item.payload.value.data.Some?
      && body.data == su.seal(rec.material, body.nonce, steps[i].item.payload.value.data.value)
  {
    AnsweredByHistory(su, b, steps, i, OpEncrypt, rec);
  }

  /** The operations that ask nothing of the store, and those the server does not know. */
  lemma FixedAnswer(item: BatchItem, clientCN: string, o: Oracle)
    ensures match item.operation
      case None => Start(item, clientCN, o) == Answer(Failure(None, 0x04))
      case Some(op) =>
        && (op == OpQuery ==> Start(item, clientCN, o) == Answer(Success(op, Capabilities)))
        && (op == OpPoll ==> Start(item, clientCN, o) == Answer(Success(op, Empty)))
        && (op == OpDiscoverVersions ==> Start(item, clientCN, o) == Answer(Success(op, Version(1, 4))))
        && (op.OpUnknown? ==> Start(item, clientCN, o) == Answer(Failure(if op.code == 0 then None else Some(op), 0x05)))
  {
  }

  /** The same, as answers of a run on either store. */
  lemma FixedAnswers(su: Suite, b: Backend, steps: seq<Step>, i: nat)
    requires EmptyBackend(b) && DistinctSteps(steps) && i < |steps|
    requires steps[i].item.operation.None? || steps[i].item.operation.value in {OpQuery, OpPoll, OpDiscoverVersions}
      || steps[i].item.operation.value.OpUnknown?
    ensures Run(su, b, steps).1[i] ==
      match steps[i].item.operation
      case None => Failure(None, 0x04)
      case Some(op) =>
        if op == OpQuery then Success(op, Capabilities)
        else if op == OpPoll then Success(op, Empty)
        else if op == OpDiscoverVersions then Success(op, Version(1, 4))
        else Failure(if op == OpUnknown(0) then None else Some(op), 0x05)
  {
    SameResponses(su, b, steps);
    AnsweredInRun(su, steps, i);
    FixedAnswer(steps[i].item, steps[i].clientCN, steps[i].o);
  }

  /** The lifecycle gate as a table over the state numbers, reached or not: PreActive 1,
      Active 2, Deactivated 3, Compromised 4, Destroyed 5, Destroyed Compromised 6,
      Archived 100. */
  lemma GateTable(state: int, op: Operation)
    ensures var refused := match op
      case OpGet => state !in {1, 2, 3, 4}
      case OpActivate => state != 1
      case OpRevoke => state !in {1, 2, 3}
      case OpDestroy => state in {5, 6}
      case OpArchive => state != 3
      case OpRecover => state != 100
      case _ => op in {OpReKey, OpEncrypt, OpDecrypt, OpSign, OpSignatureVerify, OpMAC} && state != 2;
      ValidateStateTransition(state, op) == if refused then Some(0x0B) else None
  {
  }
}
