/** What goes in comes out: the values given to one KMIP operation are the values a
    later one reports, across any run in between. */
module RoundTrips {
  import opened KeyTypes
  import opened StoreModel
  import opened Storage
  import opened Kmip
  import opened Lifecycle
  import opened Answers
  import opened Births
  import opened ItemAttributes

  lemma {:induction false} IdentityKept(steps: seq<Step>, resps: seq<ItemResponse>, stores: seq<Store>, uid: string, i: nat, j: nat)
    requires Trace(steps, resps, stores) && i <= j <= |steps| && uid in stores[i].keys
    ensures uid in stores[j].keys && SameIdentity(stores[i].keys[uid], stores[j].keys[uid])
  {
    if i < j {
      IdentityKept(steps, resps, stores, uid, i, j - 1);
      assert ItemEffect(steps[j - 1].item, resps[j - 1], steps[j - 1].o, stores[j - 1], stores[j]);
      assert RecordEffect(steps[j - 1].item, resps[j - 1], uid, stores[j - 1].keys[uid], stores[j].keys[uid]);
    }
  }

  /** Item `k` neither rekeyed nor destroyed the key. */
  predicate KeepsMaterial(steps: seq<Step>, resps: seq<ItemResponse>, uid: string, k: nat)
    requires k < |steps| <= |resps|
  {
    !Did(steps[k].item, resps[k], OpReKey, uid) && !Did(steps[k].item, resps[k], OpDestroy, uid)
  }

  lemma {:induction false} MaterialKept(steps: seq<Step>, resps: seq<ItemResponse>, stores: seq<Store>, uid: string, i: nat, j: nat)
    requires Trace(steps, resps, stores) && i <= j <= |steps| && Live(stores[i], uid)
    requires forall k :: i <= k < j ==> KeepsMaterial(steps, resps, uid, k)
    ensures Live(stores[j], uid) && stores[j].keys[uid].material == stores[i].keys[uid].material
  {
    if i < j {
      MaterialKept(steps, resps, stores, uid, i, j - 1);
      assert KeepsMaterial(steps, resps, uid, j - 1);
      assert ItemEffect(steps[j - 1].item, resps[j - 1], steps[j - 1].o, stores[j - 1], stores[j]);
      assert RecordEffect(steps[j - 1].item, resps[j - 1], uid, stores[j - 1].keys[uid], stores[j].keys[uid]);
    }
  }

  /** A lookup operation on a live key gets as far as the gate. */
  lemma LookupOutcome(su: Suite, st: Store, s: Step, op: Operation, uid: string)
    requires op == OpGet || op == OpGetAttributes || op == OpSignatureVerify || op == OpSign
    requires s.item.operation == Some(op) && HasUid(s.item.payload) && s.item.payload.value.uid == Some(uid)
    requires Start(s.item, s.clientCN, s.o).Ask? && Live(st, uid)
    ensures AfterLookup(su, op, s.item.payload.value, st.keys[uid], s.o).Answer?
    ensures ProcessItem(su, Mem(st), s.item, s.clientCN, s.o).1 == AfterLookup(su, op, s.item.payload.value, st.keys[uid], s.o).resp
  {
    var c := Start(s.item, s.clientCN, s.o).call;
    assert c == Get(uid) || c == GetAttributes(uid);
  }

  /** A key just made, as the store holds it. */
  lemma BornAt(su: Suite, steps: seq<Step>, i: nat, uid: string, src: KeyRecord)
    requires DistinctSteps(steps) && i < |steps| && Reports(steps[i].item, Run(su, Mem(EMPTY_STORE), steps).1[i], uid)
    requires UidNamed(steps[i].item) in Stores(su, steps)[i].keys ==> src == Stores(su, steps)[i].keys[UidNamed(steps[i].item)]
    ensures uid in Stores(su, steps)[i + 1].keys && BornBy(su, steps[i], src, uid, Stores(su, steps)[i + 1].keys[uid])
  {
    RunIsTrace(su, steps);
    assert AnsweredAt(su, steps, i);
    var st, s := Stores(su, steps)[i], steps[i];
    if s.item.payload.Some? {
      var attrs := s.item.payload.value.template;
      NumberGiven(attrs, "Cryptographic Length", 256, LastNumber(attrs, "Cryptographic Length", 256));
    }
    match s.item.operation.value
    case OpCreate => CreateBears(su, st, s, if s.item.payload.Some? then LastNumber(s.item.payload.value.template, "Cryptographic Length", 256) else 0);
    case OpRegister => RegisterBears(su, st, s);
    case OpCreateKeyPair => PairBorn(su, st, s);
    case OpDeriveKey => DeriveBears(su, st, s, if s.item.payload.Some? then LastNumber(s.item.payload.value.template, "Cryptographic Length", 256) else 0);
  }

  lemma PairBorn(su: Suite, st: Store, s: Step)
    requires s.item.operation == Some(OpCreateKeyPair) && s.o.first.uid != s.o.second.uid
    requires ProcessItem(su, Mem(st), s.item, s.clientCN, s.o).1.Success?
    ensures var (b', resp) := ProcessItem(su, Mem(st), s.item, s.clientCN, s.o);
      && s.item.payload.Some? && resp == Success(OpCreateKeyPair, KeyPair(s.o.first.uid, s.o.second.uid))
      && b'.Mem? && s.o.first.uid in b'.st.keys && s.o.second.uid in b'.st.keys
      && PairedBy(s, s.item.payload.value, s.o.first.uid, b'.st.keys[s.o.first.uid])
      && PairedBy(s, s.item.payload.value, s.o.second.uid, b'.st.keys[s.o.second.uid])
  {
    if s.item.payload.Some? {
      var attrs := s.item.payload.value.template;
      var algorithm, asked := LastNumber(attrs, "Cryptographic Algorithm", 4), LastNumber(attrs, "Cryptographic Length", 2048);
      NumberGiven(attrs, "Cryptographic Algorithm", 4, algorithm);
      NumberGiven(attrs, "Cryptographic Length", 2048, asked);
      var length := if algorithm == 6 && asked !in {256, 384, 521} then 256 else asked;
      assert PairLength(s.item.payload.value, algorithm, length);
      PairBears(su, st, s, algorithm, length);
    } else {
      PairBears(su, st, s, 4, 0);
    }
  }

  /** The record of the key a derivation starts from, if there is one. */
  ghost predicate SourceIs(su: Suite, b: Backend, steps: seq<Step>, i: nat, src: KeyRecord)
    requires EmptyBackend(b) && DistinctSteps(steps) && i < |steps|
  {
    Made(steps, Run(su, b, steps).1, UidNamed(steps[i].item), i) ==>
      src.uid == UidNamed(steps[i].item) && Holds(Run(su, b, steps[..i]).0, src)
  }

  /** What a reported key was born as, and what became of it by item `j`. */
  lemma BornUntil(su: Suite, b: Backend, steps: seq<Step>, i: nat, j: nat, uid: string, src: KeyRecord) returns (born: KeyRecord, now: KeyRecord)
    requires EmptyBackend(b) && DistinctSteps(steps) && i < j <= |steps|
    requires Reports(steps[i].item, Run(su, b, steps).1[i], uid) && SourceIs(su, b, steps, i, src)
    ensures BornBy(su, steps[i], src, uid, born) && SameIdentity(born, now) && born.uid == uid
    ensures Holds(Run(su, b, steps[..j]).0, now) && Made(steps, Run(su, b, steps).1, uid, j)
    ensures (forall k :: i < k < j ==> KeepsMaterial(steps, Run(su, b, steps).1, uid, k)) ==>
      now.material == born.material && now.state != 5
  {
    SameResponses(su, b, steps);
    StoredIffMade(su, steps, UidNamed(steps[i].item), i);
    HeldIs(su, b, steps, i, src);
    BornAt(su, steps, i, uid, src);
    born, now := KeptSince(su, steps, i, j, uid);
    HeldIs(su, b, steps, j, now);
    StoredIffMade(su, steps, uid, j);
  }

  lemma KeptSince(su: Suite, steps: seq<Step>, i: nat, j: nat, uid: string) returns (born: KeyRecord, now: KeyRecord)
    requires DistinctSteps(steps) && i < j <= |steps| && Live(Stores(su, steps)[i + 1], uid)
    ensures born == Stores(su, steps)[i + 1].keys[uid] && uid in Stores(su, steps)[j].keys && now == Stores(su, steps)[j].keys[uid]
    ensures SameIdentity(born, now) && born.uid == uid
    ensures (forall k :: i < k < j ==> KeepsMaterial(steps, Run(su, Mem(EMPTY_STORE), steps).1, uid, k)) ==>
      now.material == born.material && now.state != 5
  {
    RunIsTrace(su, steps);
    var resps, stores := Run(su, Mem(EMPTY_STORE), steps).1, Stores(su, steps);
    IdentityKept(steps, resps, stores, uid, i + 1, j);
    TraceKeyed(steps, resps, stores, i + 1);
    born, now := stores[i + 1].keys[uid], stores[j].keys[uid];
    if forall k :: i < k < j ==> KeepsMaterial(steps, resps, uid, k) {
      MaterialKept(steps, resps, stores, uid, i + 1, j);
    }
  }

  /** What Get shows of a record. */
  function Shown(rec: KeyRecord): Body {
    if rec.objectType == 1 then Certificate(1, rec.uid, rec.material) else Key(rec.objectType, rec.uid, rec.material, rec.algorithm, rec.length)
  }

  lemma GetAnswered(su: Suite, b: Backend, steps: seq<Step>, j: nat, rec: KeyRecord)
    requires EmptyBackend(b) && DistinctSteps(steps) && j < |steps| && Asks(steps[j].item, OpGet, rec.uid)
    requires Holds(Run(su, b, steps[..j]).0, rec) && rec.state != 5
    ensures Run(su, b, steps).1[j] == Success(OpGet, Shown(rec))
  {
    SameResponses(su, b, steps);
    HeldIs(su, b, steps, j, rec);
    PhaseFits(su, steps, rec.uid, j, rec);
    AnsweredByHistory(su, b, steps, j, OpGet, rec);
  }

  /** The state a key's history adds up to, short of Destroy: PreActive 1, Active 2,
      Compromised 4. */
  function StateByHistory(activated: nat, revoked: nat): int {
    if revoked > 0 then 4 else if activated > 0 then 2 else 1
  }

  /** The attributes of a key, however it was made: those it was born with, and the
      state its own history adds up to, until it is destroyed. */
  lemma BornThenGetAttributes(su: Suite, b: Backend, steps: seq<Step>, i: nat, j: nat, uid: string, src: KeyRecord) returns (rec: KeyRecord)
    requires EmptyBackend(b) && DistinctSteps(steps) && i < j < |steps|
    requires Reports(steps[i].item, Run(su, b, steps).1[i], uid) && SourceIs(su, b, steps, i, src)
    requires Asks(steps[j].item, OpGetAttributes, uid) && Successes(steps, Run(su, b, steps).1, OpDestroy, uid, j) == 0
    ensures BornBy(su, steps[i], src, uid, rec)
    ensures var resps := Run(su, b, steps).1;
      resps[j] == Success(OpGetAttributes, AttributesOf(uid, rec.name, rec.objectType, rec.algorithm, rec.length, rec.usageMask,
        StateByHistory(Successes(steps, resps, OpActivate, uid, j), Successes(steps, resps, OpRevoke, uid, j)), rec.createdAt / 1_000_000_000))
  {
    var now;
    rec, now := BornUntil(su, b, steps, i, j, uid, src);
    AnsweredByHistory(su, b, steps, j, OpGetAttributes, now);
    AttributesDue(su, steps, Run(su, b, steps).1, j, uid, now, Run(su, b, steps).1[j]);
  }

  lemma AttributesDue(su: Suite, steps: seq<Step>, resps: seq<ItemResponse>, j: nat, uid: string, rec: KeyRecord, resp: ItemResponse)
    requires j < |steps| <= |resps| && Asks(steps[j].item, OpGetAttributes, uid) && rec.uid == uid
    requires Made(steps, resps, uid, j) && Successes(steps, resps, OpDestroy, uid, j) == 0
    requires Due(su, OpGetAttributes, steps[j].item.payload, PhaseAt(steps, resps, uid, j), rec, steps[j].o, resp)
    ensures resp == Success(OpGetAttributes, AttributesOf(uid, rec.name, rec.objectType, rec.algorithm, rec.length, rec.usageMask,
      StateByHistory(Successes(steps, resps, OpActivate, uid, j), Successes(steps, resps, OpRevoke, uid, j)), rec.createdAt / 1_000_000_000))
  {
  }

  /** A key reads back with the material it was born with, until rekeyed or destroyed. */
  lemma BornThenGet(su: Suite, b: Backend, steps: seq<Step>, i: nat, j: nat, uid: string, src: KeyRecord) returns (rec: KeyRecord)
    requires EmptyBackend(b) && DistinctSteps(steps) && i < j < |steps|
    requires Reports(steps[i].item, Run(su, b, steps).1[i], uid) && SourceIs(su, b, steps, i, src)
    requires Asks(steps[j].item, OpGet, uid) && forall k :: i < k < j ==> KeepsMaterial(steps, Run(su, b, steps).1, uid, k)
    ensures BornBy(su, steps[i], src, uid, rec) && rec.uid == uid
    ensures Run(su, b, steps).1[j] == Success(OpGet, Shown(rec))
  {
    var now;
    rec, now := BornUntil(su, b, steps, i, j, uid, src);
    GetAnswered(su, b, steps, j, now);
  }

  /** The name a Locate asks for; none is the empty name. */
  function NameSought(item: BatchItem): string {
    if item.payload.Some? && item.payload.value.locateName.Some? then item.payload.value.locateName.value else ""
  }

  lemma LocateOutcome(su: Suite, st: Store, s: Step)
    requires s.item.operation == Some(OpLocate)
    ensures ProcessItem(su, Mem(st), s.item, s.clientCN, s.o).1 == Success(OpLocate, Located(multiset(LiveNamed(st, NameSought(s.item)))))
  {
    assert Start(s.item, s.clientCN, s.o) == Ask(Locate(NameSought(s.item)));
  }

  /** A key, however it was made, is located once under the name it was born with, and
      under no other, until it is destroyed. */
  lemma BornThenLocate(su: Suite, b: Backend, steps: seq<Step>, i: nat, j: nat, uid: string, src: KeyRecord) returns (rec: KeyRecord)
    requires EmptyBackend(b) && DistinctSteps(steps) && i < j < |steps|
    requires Reports(steps[i].item, Run(su, b, steps).1[i], uid) && SourceIs(su, b, steps, i, src)
    requires steps[j].item.operation == Some(OpLocate)
    ensures BornBy(su, steps[i], src, uid, rec)
    ensures var resps := Run(su, b, steps).1;
      && resps[j].Success? && resps[j].op == OpLocate && resps[j].body.Located?
      && resps[j].body.uids[uid] == if NameSought(steps[j].item) == rec.name && Successes(steps, resps, OpDestroy, uid, j) == 0 then 1 else 0
  {
    var now;
    rec, now := BornUntil(su, b, steps, i, j, uid, src);
    SameResponses(su, b, steps);
    HeldIs(su, b, steps, j, now);
    PhaseFits(su, steps, uid, j, now);
    AnsweredInRun(su, steps, j);
    LocateOutcome(su, Stores(su, steps)[j], steps[j]);
  }

  /** Locate shows no key that was not made, or that is gone. */
  lemma LocateShowsOnlyLive(su: Suite, b: Backend, steps: seq<Step>, j: nat, uid: string)
    requires EmptyBackend(b) && DistinctSteps(steps) && j < |steps| && steps[j].item.operation == Some(OpLocate)
    ensures var resps := Run(su, b, steps).1;
      && resps[j].Success? && resps[j].body.Located?
      && (uid in resps[j].body.uids ==> Made(steps, resps, uid, j) && Successes(steps, resps, OpDestroy, uid, j) == 0)
  {
    SameResponses(su, b, steps);
    AnsweredInRun(su, steps, j);
    LocateOutcome(su, Stores(su, steps)[j], steps[j]);
    StoredIffMade(su, steps, uid, j);
    if uid in Stores(su, steps)[j].keys {
      PhaseFits(su, steps, uid, j, Stores(su, steps)[j].keys[uid]);
    }
  }

  lemma SameNumber(attrs: seq<TemplateAttribute>, name: string, default: int, v: int, w: int)
    requires GivesNumber(attrs, name, default, v) && GivesNumber(attrs, name, default, w)
    ensures v == w
  {
    NumberGiven(attrs, name, default, v);
    NumberGiven(attrs, name, default, w);
  }

  /** A Create whose template, by the last attribute of each name, gives these values. */
  ghost predicate Specifies(item: BatchItem, name: string, algorithm: int, length: int, mask: int) {
    && item.operation == Some(OpCreate) && item.payload.Some?
    && GivesName(item.payload.value.template, name)
    && GivesNumber(item.payload.value.template, "Cryptographic Algorithm", 3, algorithm)
    && GivesNumber(item.payload.value.template, "Cryptographic Length", 256, length)
    && GivesNumber(item.payload.value.template, "Cryptographic Usage Mask", 12, mask)
  }

  lemma SpecifiedBirth(su: Suite, s: Step, src: KeyRecord, uid: string, rec: KeyRecord, name: string, algorithm: int, length: int, mask: int)
    requires Specifies(s.item, name, algorithm, length, mask) && BornBy(su, s, src, uid, rec)
    ensures rec.name == name && rec.algorithm == algorithm && rec.length == length && rec.usageMask == mask
    ensures rec.objectType == 2 && rec.createdAt == s.o.first.now && Drawn(rec.material, s.o.first.entropy, length / 8)
  {
    var attrs := s.item.payload.value.template;
    NameGiven(attrs, name);
    NameGiven(attrs, rec.name);
    SameNumber(attrs, "Cryptographic Algorithm", 3, algorithm, rec.algorithm);
    SameNumber(attrs, "Cryptographic Length", 256, length, rec.length);
    SameNumber(attrs, "Cryptographic Usage Mask", 12, mask, rec.usageMask);
  }

  /** A Create succeeds exactly for 1 to 32768 bits and a working random source. */
  lemma CreateReports(su: Suite, b: Backend, steps: seq<Step>, i: nat, name: string, algorithm: int, length: int, mask: int)
    requires EmptyBackend(b) && DistinctSteps(steps) && i < |steps| && Specifies(steps[i].item, name, algorithm, length, mask)
    ensures Run(su, b, steps).1[i] ==
      if 1 <= length <= 32768 && steps[i].o.first.entropy.Some? then Success(OpCreate, Object(2, steps[i].o.first.uid))
      else Failure(Some(OpCreate), 0x100)
  {
    SameResponses(su, b, steps);
    AnsweredInRun(su, steps, i);
    CreateBears(su, Stores(su, steps)[i], steps[i], length);
  }

  /** The attributes of a created key are those of its template, its creation time,
      and the state its own history adds up to, until it is destroyed. */
  lemma CreateThenGetAttributes(su: Suite, b: Backend, steps: seq<Step>, i: nat, j: nat, name: string, algorithm: int, length: int, mask: int)
    requires EmptyBackend(b) && DistinctSteps(steps) && i < j < |steps| && Specifies(steps[i].item, name, algorithm, length, mask)
    requires 1 <= length <= 32768 && steps[i].o.first.entropy.Some?
    requires Asks(steps[j].item, OpGetAttributes, steps[i].o.first.uid)
    requires Successes(steps, Run(su, b, steps).1, OpDestroy, steps[i].o.first.uid, j) == 0
    ensures var resps, uid := Run(su, b, steps).1, steps[i].o.first.uid;
      resps[j] == Success(OpGetAttributes, AttributesOf(uid, name, 2, algorithm, length, mask,
        StateByHistory(Successes(steps, resps, OpActivate, uid, j), Successes(steps, resps, OpRevoke, uid, j)),
        steps[i].o.first.now / 1_000_000_000))
  {
    CreateReports(su, b, steps, i, name, algorithm, length, mask);
    var uid := steps[i].o.first.uid;
    var src := RecordOf(su, b, steps, UidNamed(steps[i].item), i);
    var rec := BornThenGetAttributes(su, b, steps, i, j, uid, src);
    SpecifiedBirth(su, steps[i], src, uid, rec, name, algorithm, length, mask);
  }

  /** A created key is located under the name of its template and no other, once, until
      it is destroyed. */
  lemma CreateThenLocate(su: Suite, b: Backend, steps: seq<Step>, i: nat, j: nat, name: string, algorithm: int, length: int, mask: int)
    requires EmptyBackend(b) && DistinctSteps(steps) && i < j < |steps| && Specifies(steps[i].item, name, algorithm, length, mask)
    requires 1 <= length <= 32768 && steps[i].o.first.entropy.Some? && steps[j].item.operation == Some(OpLocate)
    ensures var resps, uid := Run(su, b, steps).1, steps[i].o.first.uid;
      && resps[j].Success? && resps[j].body.Located?
      && resps[j].body.uids[uid] == if NameSought(steps[j].item) == name && Successes(steps, resps, OpDestroy, uid, j) == 0 then 1 else 0
  {
    CreateReports(su, b, steps, i, name, algorithm, length, mask);
    var uid := steps[i].o.first.uid;
    var src := RecordOf(su, b, steps, UidNamed(steps[i].item), i);
    var rec := BornThenLocate(su, b, steps, i, j, uid, src);
    SpecifiedBirth(su, steps[i], src, uid, rec, name, algorithm, length, mask);
  }

  /** A created key reads back as length/8 bytes of the random source, in order. */
  lemma CreateThenGet(su: Suite, b: Backend, steps: seq<Step>, i: nat, j: nat, name: string, algorithm: int, length: int, mask: int)
    requires EmptyBackend(b) && DistinctSteps(steps) && i < j < |steps| && Specifies(steps[i].item, name, algorithm, length, mask)
    requires 1 <= length <= 32768 && steps[i].o.first.entropy.Some? && Asks(steps[j].item, OpGet, steps[i].o.first.uid)
    requires forall k :: i < k < j ==> KeepsMaterial(steps, Run(su, b, steps).1, steps[i].o.first.uid, k)
    ensures var resp, uid := Run(su, b, steps).1[j], steps[i].o.first.uid;
      && resp.Success? && resp.body.Key? && resp == Success(OpGet, Key(2, uid, resp.body.material, algorithm, length))
      && Drawn(resp.body.material, steps[i].o.first.entropy, length / 8)
  {
    CreateReports(su, b, steps, i, name, algorithm, length, mask);
    var uid := steps[i].o.first.uid;
    var src := RecordOf(su, b, steps, UidNamed(steps[i].item), i);
    var rec := BornThenGet(su, b, steps, i, j, uid, src);
    SpecifiedBirth(su, steps[i], src, uid, rec, name, algorithm, length, mask);
  }

  /** A registered object of any type reads back as it was registered, with the defaults
      for what its payload leaves out, until it is rekeyed or destroyed. */
  lemma RegisterThenGet(su: Suite, b: Backend, steps: seq<Step>, i: nat, j: nat)
    requires EmptyBackend(b) && DistinctSteps(steps) && i < j < |steps|
    requires steps[i].item.operation == Some(OpRegister) && steps[i].item.payload.Some? && MaterialOffered(steps[i].item.payload.value).Some?
    requires TypeOffered(steps[i].item.payload.value) == 1 || OrElse(BlockOffered(steps[i].item.payload.value).length, 256) >= 0
    requires Asks(steps[j].item, OpGet, steps[i].o.first.uid)
    requires forall k :: i < k < j ==> KeepsMaterial(steps, Run(su, b, steps).1, steps[i].o.first.uid, k)
    ensures var resps, uid, p := Run(su, b, steps).1, steps[i].o.first.uid, steps[i].item.payload.value;
      && resps[i] == Success(OpRegister, Uid(uid))
      && resps[j] == Success(OpGet,
           if TypeOffered(p) == 1 then Certificate(1, uid, MaterialOffered(p).value)
           else Key(TypeOffered(p), uid, MaterialOffered(p).value, OrElse(BlockOffered(p).algorithm, 3), OrElse(BlockOffered(p).length, 256)))
  {
    SameResponses(su, b, steps);
    AnsweredInRun(su, steps, i);
    RegisterBears(su, Stores(su, steps)[i], steps[i]);
    var src := RecordOf(su, b, steps, UidNamed(steps[i].item), i);
    var rec := BornThenGet(su, b, steps, i, j, steps[i].o.first.uid, src);
  }

  /** When a registration succeeds, and why it fails. */
  lemma RegisterAnswered(su: Suite, b: Backend, steps: seq<Step>, i: nat)
    requires EmptyBackend(b) && DistinctSteps(steps) && i < |steps| && steps[i].item.operation == Some(OpRegister)
    ensures Run(su, b, steps).1[i] ==
      if steps[i].item.payload.None? || MaterialOffered(steps[i].item.payload.value).None? then Failure(Some(OpRegister), 0x06)
      else if TypeOffered(steps[i].item.payload.value) != 1 && OrElse(BlockOffered(steps[i].item.payload.value).length, 256) < 0
      then Failure(Some(OpRegister), 0x100)
      else Success(OpRegister, Uid(steps[i].o.first.uid))
  {
    SameResponses(su, b, steps);
    AnsweredInRun(su, steps, i);
    RegisterBears(su, Stores(su, steps)[i], steps[i]);
  }

  /** When a pair is created: for RSA (4) and ECDSA (6), if generation works and the
      length is not negative. */
  lemma PairAnswered(su: Suite, b: Backend, steps: seq<Step>, i: nat, algorithm: int, length: int)
    requires EmptyBackend(b) && DistinctSteps(steps) && i < |steps| && steps[i].item.operation == Some(OpCreateKeyPair)
    requires steps[i].item.payload.Some? ==>
      && GivesNumber(steps[i].item.payload.value.template, "Cryptographic Algorithm", 4, algorithm)
      && PairLength(steps[i].item.payload.value, algorithm, length)
    ensures Run(su, b, steps).1[i] ==
      if steps[i].item.payload.None? then Failure(Some(OpCreateKeyPair), 0x06)
      else if algorithm != 4 && algorithm != 6 then Failure(Some(OpCreateKeyPair), 0x07)
      else if steps[i].o.keyPair.None? then Failure(Some(OpCreateKeyPair), 0x0A)
      else if length < 0 then Failure(Some(OpCreateKeyPair), 0x100)
      else Success(OpCreateKeyPair, KeyPair(steps[i].o.first.uid, steps[i].o.second.uid))
  {
    SameResponses(su, b, steps);
    AnsweredInRun(su, steps, i);
    PairBears(su, Stores(su, steps)[i], steps[i], algorithm, length);
  }

  /** When a derivation succeeds: from a key made and not destroyed, for at most 512 bytes. */
  lemma DeriveAnswered(su: Suite, b: Backend, steps: seq<Step>, i: nat, length: int)
    requires EmptyBackend(b) && DistinctSteps(steps) && i < |steps| && steps[i].item.operation == Some(OpDeriveKey)
    requires steps[i].item.payload.Some? ==> GivesNumber(steps[i].item.payload.value.template, "Cryptographic Length", 256, length)
    ensures var resps, uid := Run(su, b, steps).1, UidNamed(steps[i].item);
      resps[i] ==
        if steps[i].item.payload.None? || steps[i].item.payload.value.uid.None? then Failure(Some(OpDeriveKey), 0x06)
        else if !Made(steps, resps, uid, i) || Successes(steps, resps, OpDestroy, uid, i) > 0 || DerivedSize(length) > 512
        then Failure(Some(OpDeriveKey), 0x100)
        else Success(OpDeriveKey, Uid(steps[i].o.first.uid))
  {
    SameResponses(su, b, steps);
    AnsweredInRun(su, steps, i);
    var uid := UidNamed(steps[i].item);
    DeriveBears(su, Stores(su, steps)[i], steps[i], length);
    StoredIffMade(su, steps, uid, i);
    if uid in Stores(su, steps)[i].keys {
      PhaseFits(su, steps, uid, i, Stores(su, steps)[i].keys[uid]);
    }
  }

  /** What a successful ReKey leaves in the store. */
  lemma RekeyStores(su: Suite, st: Store, s: Step, uid: string)
    requires Did(s.item, ProcessItem(su, Mem(st), s.item, s.clientCN, s.o).1, OpReKey, uid)
    ensures var b' := ProcessItem(su, Mem(st), s.item, s.clientCN, s.o).0;
      && b'.Mem? && Live(st, uid) && Live(b'.st, uid) && st.keys[uid].length > 0
      && Drawn(b'.st.keys[uid].material, s.o.second.entropy, st.keys[uid].length / 8)
  {
    TransitionOutcome(su, st, s.item, s.clientCN, s.o);
    ChangeOutcome(su, st, OpReKey, s.item.payload.value, s.o.second);
  }

  /** After a ReKey a key reads back as length/8 fresh bytes of the random source. */
  lemma RekeyThenGet(su: Suite, b: Backend, steps: seq<Step>, i: nat, j: nat, uid: string, rec: KeyRecord)
    requires EmptyBackend(b) && DistinctSteps(steps) && i < j < |steps|
    requires Did(steps[i].item, Run(su, b, steps).1[i], OpReKey, uid) && Asks(steps[j].item, OpGet, uid)
    requires forall k :: i < k < j ==> KeepsMaterial(steps, Run(su, b, steps).1, uid, k)
    requires Holds(Run(su, b, steps[..j]).0, rec) && rec.uid == uid
    ensures rec.length > 0 && Drawn(rec.material, steps[i].o.second.entropy, rec.length / 8)
    ensures Run(su, b, steps).1[j] == Success(OpGet, Shown(rec))
  {
    SameResponses(su, b, steps);
    RunIsTrace(su, steps);
    var resps, stores := Run(su, Mem(EMPTY_STORE), steps).1, Stores(su, steps);
    assert AnsweredAt(su, steps, i);
    RekeyStores(su, stores[i], steps[i], uid);
    IdentityKept(steps, resps, stores, uid, i, j);
    MaterialKept(steps, resps, stores, uid, i + 1, j);
    HeldIs(su, b, steps, j, rec);
    GetAnswered(su, b, steps, j, rec);
  }

  /** Deriving again from the same key with the same request gives a key with the same
      material, length, name, algorithm and usage, unless the source was rekeyed or
      destroyed in between. */
  lemma DeriveRepeats(su: Suite, b: Backend, steps: seq<Step>, i: nat, j: nat, m: nat, n: nat, uid: string)
    requires EmptyBackend(b) && DistinctSteps(steps) && i < j < |steps| && i < m < |steps| && j < n < |steps|
    requires var resps := Run(su, b, steps).1;
      && Did(steps[i].item, resps[i], OpDeriveKey, uid) && Did(steps[j].item, resps[j], OpDeriveKey, uid)
      && (forall k :: i < k < j ==> KeepsMaterial(steps, resps, uid, k))
      && (forall k :: i < k < m ==> KeepsMaterial(steps, resps, steps[i].o.first.uid, k))
      && (forall k :: j < k < n ==> KeepsMaterial(steps, resps, steps[j].o.first.uid, k))
    requires steps[j].item.payload == steps[i].item.payload
    requires Asks(steps[m].item, OpGet, steps[i].o.first.uid) && Asks(steps[n].item, OpGet, steps[j].o.first.uid)
    ensures var first, again := Run(su, b, steps).1[m], Run(su, b, steps).1[n];
      && first.Success? && first.body.Key? && again.Success? && again.body.Key? && steps[i].o.first.uid != steps[j].o.first.uid
      && again.body == Key(first.body.objectType, steps[j].o.first.uid, first.body.material, first.body.algorithm, first.body.length)
  {
    var src, src' := SourcesAlike(su, b, steps, i, j, uid);
    DeriveReports(su, b, steps, i);
    DeriveReports(su, b, steps, j);
    var rec := BornThenGet(su, b, steps, i, m, steps[i].o.first.uid, src);
    var rec' := BornThenGet(su, b, steps, j, n, steps[j].o.first.uid, src');
    SameNumber(steps[i].item.payload.value.template, "Cryptographic Length", 256, rec.length, rec'.length);
    assert {steps[i].o.first.uid, steps[i].o.second.uid} !! {steps[j].o.first.uid, steps[j].o.second.uid};
  }

  lemma DeriveReports(su: Suite, b: Backend, steps: seq<Step>, i: nat)
    requires EmptyBackend(b) && DistinctSteps(steps) && i < |steps|
    requires steps[i].item.operation == Some(OpDeriveKey) && Run(su, b, steps).1[i].Success?
    ensures Reports(steps[i].item, Run(su, b, steps).1[i], steps[i].o.first.uid)
  {
    SameResponses(su, b, steps);
    AnsweredInRun(su, steps, i);
    var length := if steps[i].item.payload.Some? then LastNumber(steps[i].item.payload.value.template, "Cryptographic Length", 256) else 0;
    if steps[i].item.payload.Some? {
      NumberGiven(steps[i].item.payload.value.template, "Cryptographic Length", 256, length);
    }
    DeriveBears(su, Stores(su, steps)[i], steps[i], length);
  }

  lemma SourcesAlike(su: Suite, b: Backend, steps: seq<Step>, i: nat, j: nat, uid: string) returns (src: KeyRecord, src': KeyRecord)
    requires EmptyBackend(b) && DistinctSteps(steps) && i < j < |steps|
    requires var resps := Run(su, b, steps).1;
      && Did(steps[i].item, resps[i], OpDeriveKey, uid) && Did(steps[j].item, resps[j], OpDeriveKey, uid)
      && (forall k :: i < k < j ==> KeepsMaterial(steps, resps, uid, k))
    ensures SourceIs(su, b, steps, i, src) && SourceIs(su, b, steps, j, src')
    ensures src'.material == src.material && src'.algorithm == src.algorithm && src'.usageMask == src.usageMask && src'.owner == src.owner
  {
    SameResponses(su, b, steps);
    RunIsTrace(su, steps);
    var resps, stores := Run(su, Mem(EMPTY_STORE), steps).1, Stores(su, steps);
    DerivedFromLive(su, steps, i, uid);
    src := stores[i].keys[uid];
    assert KeepsMaterial(steps, resps, uid, i);
    MaterialKept(steps, resps, stores, uid, i, j);
    IdentityKept(steps, resps, stores, uid, i, j);
    TraceKeyed(steps, resps, stores, i);
    HeldIs(su, b, steps, i, src);
    HeldIs(su, b, steps, j, stores[j].keys[uid]);
    src' := stores[j].keys[uid];
  }

  lemma DerivedFromLive(su: Suite, steps: seq<Step>, i: nat, uid: string)
    requires DistinctSteps(steps) && i < |steps| && Did(steps[i].item, Run(su, Mem(EMPTY_STORE), steps).1[i], OpDeriveKey, uid)
    ensures Live(Stores(su, steps)[i], uid)
  {
    AnsweredInRun(su, steps, i);
    var length := LastNumber(steps[i].item.payload.value.template, "Cryptographic Length", 256);
    NumberGiven(steps[i].item.payload.value.template, "Cryptographic Length", 256, length);
    DeriveBears(su, Stores(su, steps)[i], steps[i], length);
  }

  /** The generated halves belong together. */
  ghost predicate Pairs(su: Suite, privateKey: bytes, publicKey: bytes) {
    forall d: bytes, seed: int :: su.sign(privateKey, d, seed).Some? ==>
      su.verify(publicKey, d, su.sign(privateKey, d, seed).value) == Some(true)
  }

  lemma PairOutcome(su: Suite, st: Store, s: Step)
    requires s.item.operation == Some(OpCreateKeyPair) && s.o.first.uid != s.o.second.uid
    requires ProcessItem(su, Mem(st), s.item, s.clientCN, s.o).1.Success?
    ensures var (b', resp) := ProcessItem(su, Mem(st), s.item, s.clientCN, s.o);
      && resp == Success(OpCreateKeyPair, KeyPair(s.o.first.uid, s.o.second.uid)) && s.o.keyPair.Some?
      && b'.Mem? && Live(b'.st, s.o.first.uid) && Live(b'.st, s.o.second.uid)
      && b'.st.keys[s.o.first.uid].material == s.o.keyPair.value.0 && b'.st.keys[s.o.first.uid].objectType == PRIVATE_KEY
      && b'.st.keys[s.o.second.uid].material == s.o.keyPair.value.1 && b'.st.keys[s.o.second.uid].objectType == PUBLIC_KEY
      && b'.st.keys[s.o.second.uid].uid == s.o.second.uid
  {
  }

  /** A signature made with the private half of a created pair is found valid with the
      public half, whatever ran in between, unless a half was rekeyed or destroyed. */
  lemma SignatureVerifies(su: Suite, b: Backend, steps: seq<Step>, i: nat, k: nat, j: nat)
    requires EmptyBackend(b) && DistinctSteps(steps) && i < k < j < |steps|
    requires var resps := Run(su, b, steps).1;
      && steps[i].item.operation == Some(OpCreateKeyPair) && resps[i].Success?
      && Did(steps[k].item, resps[k], OpSign, steps[i].o.first.uid)
      && Did(steps[j].item, resps[j], OpSignatureVerify, steps[i].o.second.uid)
      && (forall n :: i < n < k ==> KeepsMaterial(steps, resps, steps[i].o.first.uid, n))
      && (forall n :: i < n < j ==> KeepsMaterial(steps, resps, steps[i].o.second.uid, n))
    requires steps[i].o.keyPair.Some? ==> Pairs(su, steps[i].o.keyPair.value.0, steps[i].o.keyPair.value.1)
    requires var signed := Run(su, b, steps).1[k].body;
      && signed.Signed?
      && steps[j].item.payload.value.data == steps[k].item.payload.value.data
      && steps[j].item.payload.value.signature == Some(signed.signature)
    ensures Run(su, b, steps).1[j] == Success(OpSignatureVerify, Verified(steps[i].o.second.uid, 0))
  {
    SameResponses(su, b, steps);
    RunIsTrace(su, steps);
    var resps, stores := Run(su, Mem(EMPTY_STORE), steps).1, Stores(su, steps);
    var privateUid, publicUid := steps[i].o.first.uid, steps[i].o.second.uid;
    assert AnsweredAt(su, steps, i) && AnsweredAt(su, steps, k) && AnsweredAt(su, steps, j);
    PairOutcome(su, stores[i], steps[i]);
    MaterialKept(steps, resps, stores, privateUid, i + 1, k);
    MaterialKept(steps, resps, stores, publicUid, i + 1, j);
    IdentityKept(steps, resps, stores, publicUid, i + 1, j);
    SignOutcome(su, stores[k], steps[k], privateUid);
    VerifyOutcome(su, stores[j], steps[j], publicUid);
  }

  lemma SignOutcome(su: Suite, st: Store, s: Step, uid: string)
    requires Live(st, uid) && Did(s.item, ProcessItem(su, Mem(st), s.item, s.clientCN, s.o).1, OpSign, uid)
    ensures s.item.payload.value.data.Some?
    ensures var sig := su.sign(st.keys[uid].material, s.item.payload.value.data.value, s.o.seed);
      sig.Some? && ProcessItem(su, Mem(st), s.item, s.clientCN, s.o).1 == Success(OpSign, Signed(st.keys[uid].uid, sig.value))
  {
    LookupOutcome(su, st, s, OpSign, uid);
  }

  lemma VerifyOutcome(su: Suite, st: Store, s: Step, uid: string)
    requires Live(st, uid) && Did(s.item, ProcessItem(su, Mem(st), s.item, s.clientCN, s.o).1, OpSignatureVerify, uid)
    ensures s.item.payload.value.data.Some? && s.item.payload.value.signature.Some?
    ensures var ok := su.verify(st.keys[uid].material, s.item.payload.value.data.value, s.item.payload.value.signature.value);
      && ok.Some?
      && ProcessItem(su, Mem(st), s.item, s.clientCN, s.o).1
         == Success(OpSignatureVerify, Verified(st.keys[uid].uid, if ok.value then 0 else 1))
  {
    LookupOutcome(su, st, s, OpSignatureVerify, uid);
  }

  lemma MacOutcome(su: Suite, st: Store, s: Step, uid: string)
    requires Did(s.item, ProcessItem(su, Mem(st), s.item, s.clientCN, s.o).1, OpMAC, uid)
    ensures Live(st, uid) && st.keys[uid].state == ACTIVE && s.item.payload.value.data.Some?
    ensures ProcessItem(su, Mem(st), s.item, s.clientCN, s.o).1
      == Success(OpMAC, Maced(st.keys[uid].uid, su.mac(st.keys[uid].material, s.item.payload.value.data.value)))
  {
    assert Start(s.item, s.clientCN, s.o) == Ask(Get(uid));
  }

  /** The MAC of the same data comes out the same for as long as the key is left alone. */
  lemma MacRepeats(su: Suite, b: Backend, steps: seq<Step>, i: nat, j: nat, uid: string)
    requires EmptyBackend(b) && DistinctSteps(steps) && i < j < |steps|
    requires var resps := Run(su, b, steps).1;
      && Did(steps[i].item, resps[i], OpMAC, uid) && Did(steps[j].item, resps[j], OpMAC, uid)
      && (forall k :: i < k < j ==> LeftAlone(steps, resps, uid, k))
    requires steps[j].item.payload.value.data == steps[i].item.payload.value.data
    ensures Run(su, b, steps).1[j] == Run(su, b, steps).1[i]
  {
    SameResponses(su, b, steps);
    RunIsTrace(su, steps);
    var resps, stores := Run(su, Mem(EMPTY_STORE), steps).1, Stores(su, steps);
    assert AnsweredAt(su, steps, i) && AnsweredAt(su, steps, j);
    MacOutcome(su, stores[i], steps[i], uid);
    MacOutcome(su, stores[j], steps[j], uid);
    assert LeftAlone(steps, resps, uid, i);
    UntouchedKey(steps, resps, stores, uid, i, j);
  }

  /** Operations that need the key their payload names. */
  predicate NeedsKey(op: Operation) {
    KeyOp(op) || IsAttributeOp(op) || op == OpDeriveKey
  }

  lemma {:induction false} CountedSince(steps: seq<Step>, resps: seq<ItemResponse>, op: Operation, uid: string, i: nat, j: nat)
    requires i < j <= |steps| <= |resps| && Did(steps[i].item, resps[i], op, uid)
    ensures Successes(steps, resps, op, uid, j) > 0
  {
    if i < j - 1 {
      CountedSince(steps, resps, op, uid, i, j - 1);
    }
  }

  /** After a successful Destroy, every later operation that needs the key fails. */
  lemma DestroyedKeyIsUseless(su: Suite, b: Backend, steps: seq<Step>, i: nat, j: nat, op: Operation, uid: string)
    requires EmptyBackend(b) && DistinctSteps(steps) && i < j < |steps|
    requires Did(steps[i].item, Run(su, b, steps).1[i], OpDestroy, uid)
    requires NeedsKey(op) && Asks(steps[j].item, op, uid)
    ensures Run(su, b, steps).1[j].Failure?
  {
    var resps := Run(su, b, steps).1;
    CountedSince(steps, resps, OpDestroy, uid, i, j);
    if op == OpDeriveKey {
      var attrs := steps[j].item.payload.value.template;
      var length := LastNumber(attrs, "Cryptographic Length", 256);
      NumberGiven(attrs, "Cryptographic Length", 256, length);
      DeriveAnswered(su, b, steps, j, length);
    } else if IsAttributeOp(op) {
      AttributeAnswered(su, b, steps, j, op);
    } else {
      var rec := RecordOf(su, b, steps, uid, j);
      AnsweredByHistory(su, b, steps, j, op, rec);
    }
  }
}
