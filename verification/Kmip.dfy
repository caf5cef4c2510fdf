/** KMIP requests and responses after decoding, and each operation as the storage
    calls it makes: at most two, with the code before, between and after them. */
module Kmip {
  import opened KeyTypes
  import opened StoreModel
  import opened Storage

  datatype Operation =
    | OpCreate | OpCreateKeyPair | OpRegister | OpReKey | OpDeriveKey | OpLocate | OpCheck | OpGet
    | OpGetAttributes | OpGetAttributeList | OpAddAttribute | OpModifyAttribute | OpDeleteAttribute
    | OpObtainLease | OpActivate | OpRevoke | OpDestroy | OpArchive | OpRecover | OpQuery | OpPoll
    | OpDiscoverVersions | OpEncrypt | OpDecrypt | OpSign | OpSignatureVerify | OpMAC
    | OpUnknown(code: int)

  const REASON_ITEM_NOT_FOUND := 0x01
  const REASON_RESPONSE_TOO_LARGE := 0x02
  const REASON_INVALID_MESSAGE := 0x04
  const REASON_OPERATION_NOT_SUPPORTED := 0x05
  const REASON_MISSING_DATA := 0x06
  const REASON_INVALID_FIELD := 0x07
  const REASON_FEATURE_NOT_SUPPORTED := 0x08
  const REASON_CRYPTOGRAPHIC_FAILURE := 0x0A
  const REASON_ILLEGAL_OPERATION := 0x0B
  const REASON_GENERAL_FAILURE := 0x100

  const ALGORITHM_AES := 3
  const ALGORITHM_RSA := 4
  const ALGORITHM_ECDSA := 6
  const USAGE_SIGN_VERIFY := 0x03
  const USAGE_ENCRYPT_DECRYPT := 0x0C

  const SUPPORTED_MAJOR := 1
  const SUPPORTED_MINOR := 4
  const MAX_BATCH_ITEMS := 100

  datatype AttributeValue = AttributeValue(nameValue: Option<string>, number: int)
  datatype TemplateAttribute = TemplateAttribute(name: Option<string>, value: Option<AttributeValue>)
  datatype KeyBlock = KeyBlock(algorithm: Option<int>, length: Option<int>, material: Option<bytes>)
  datatype CustomAttribute = CustomAttribute(name: Option<string>, value: Option<string>)

  /** A request payload: every child a handler may look for, absent or present. */
  datatype Payload = Payload(
    uid: Option<string>,
    template: seq<TemplateAttribute>,
    locateName: Option<string>,
    objectType: Option<int>,
    publicKey: Option<KeyBlock>,
    privateKey: Option<KeyBlock>,
    symmetricKey: Option<KeyBlock>,
    certificate: Option<bytes>,
    revocationCode: Option<int>,
    data: Option<bytes>,
    nonce: Option<bytes>,
    signature: Option<bytes>,
    attribute: Option<CustomAttribute>,
    derivationData: Option<bytes>)

  datatype BatchItem = BatchItem(operation: Option<Operation>, payload: Option<Payload>)

  datatype Body =
    | Empty
    | Object(objectType: int, uid: string)
    | Uid(uid: string)
    | KeyPair(privateUid: string, publicUid: string)
    | Key(objectType: int, uid: string, material: bytes, algorithm: int, length: int)
    | Certificate(objectType: int, uid: string, material: bytes)
    | Located(uids: multiset<string>)
    | AttributesOf(uid: string, name: string, objectType: int, algorithm: int, length: int, usageMask: int,
                   state: KeyState, initialDate: int)
    | AttributeNames(uid: string)
    | Lease(uid: string, seconds: int)
    | Encrypted(uid: string, data: bytes, nonce: bytes)
    | Decrypted(uid: string, data: bytes)
    | Signed(uid: string, signature: bytes)
    | Verified(uid: string, invalid: int)
    | Maced(uid: string, mac: bytes)
    | Version(major: int, minor: int)
    | Capabilities

  datatype ItemResponse =
    | Success(op: Operation, body: Body)
    | Failure(failedOp: Option<Operation>, reason: int)

  /** What one batch item draws from outside. `keyPair` is the outcome of key-pair generation. */
  datatype Oracle = Oracle(first: Env, second: Env, keyPair: Option<(bytes, bytes)>, seed: int)

  /** The lifecycle gate: `None` admits the operation, otherwise the refusal reason. */
  function ValidateStateTransition(state: KeyState, op: Operation): Option<int> {
    var ok := match op
      case OpGet => state == PRE_ACTIVE || state == ACTIVE || state == DEACTIVATED || state == COMPROMISED
      case OpActivate => state == PRE_ACTIVE
      case OpRevoke => state == PRE_ACTIVE || state == ACTIVE || state == DEACTIVATED
      case OpDestroy => state != DESTROYED && state != DESTROYED_COMPROMISED
      case OpArchive => state == DEACTIVATED
      case OpRecover => state == ARCHIVED
      case OpReKey => state == ACTIVE
      case OpEncrypt => state == ACTIVE
      case OpDecrypt => state == ACTIVE
      case OpSign => state == ACTIVE
      case OpSignatureVerify => state == ACTIVE
      case OpMAC => state == ACTIVE
      case _ => true;
    if ok then None else Some(REASON_ILLEGAL_OPERATION)
  }

  predicate Named(a: TemplateAttribute, name: string) {
    a.name == Some(name) && a.value.Some?
  }

  /** Attribute `i` has this name and a value, and no later one has. */
  ghost predicate LastNamed(attrs: seq<TemplateAttribute>, name: string, i: int) {
    0 <= i < |attrs| && Named(attrs[i], name) && forall k :: i < k < |attrs| ==> !Named(attrs[k], name)
  }

  /** What a template says about a number: the last attribute of that name decides, and
      without one the default. */
  ghost predicate GivesNumber(attrs: seq<TemplateAttribute>, name: string, default: int, v: int) {
    || (exists i :: LastNamed(attrs, name, i) && v == attrs[i].value.value.number)
    || ((forall i :: 0 <= i < |attrs| ==> !Named(attrs[i], name)) && v == default)
  }

  /** The attribute carries a name. */
  predicate NamesKey(a: TemplateAttribute) {
    a.name == Some("Name") && a.value.Some? && a.value.value.nameValue.Some?
  }

  ghost predicate LastNaming(attrs: seq<TemplateAttribute>, i: int) {
    0 <= i < |attrs| && NamesKey(attrs[i]) && forall k :: i < k < |attrs| ==> !NamesKey(attrs[k])
  }

  ghost predicate GivesName(attrs: seq<TemplateAttribute>, v: string) {
    || (exists i :: LastNaming(attrs, i) && v == attrs[i].value.value.nameValue.value)
    || ((forall i :: 0 <= i < |attrs| ==> !NamesKey(attrs[i])) && v == "")
  }

  /** The recursion finds exactly what the template says. */
  lemma {:induction false} NumberGiven(attrs: seq<TemplateAttribute>, name: string, default: int, v: int)
    ensures GivesNumber(attrs, name, default, v) <==> v == LastNumber(attrs, name, default)
  {
    if attrs != [] {
      var n := |attrs| - 1;
      if Named(attrs[n], name) {
        assert LastNamed(attrs, name, n);
      } else {
        NumberGiven(attrs[..n], name, default, v);
        assert forall i :: LastNamed(attrs, name, i) <==> LastNamed(attrs[..n], name, i);
        assert forall i :: 0 <= i < n ==> attrs[..n][i] == attrs[i];
      }
    }
  }

  lemma {:induction false} NameGiven(attrs: seq<TemplateAttribute>, v: string)
    ensures GivesName(attrs, v) <==> v == LastName(attrs)
  {
    if attrs != [] {
      var n := |attrs| - 1;
      if NamesKey(attrs[n]) {
        assert LastNaming(attrs, n);
      } else {
        NameGiven(attrs[..n], v);
        assert forall i :: LastNaming(attrs, i) <==> LastNaming(attrs[..n], i);
        assert forall i :: 0 <= i < n ==> attrs[..n][i] == attrs[i];
      }
    }
  }

  /** The value of the last template attribute with this name. */
  function LastNumber(attrs: seq<TemplateAttribute>, name: string, default: int): int {
    if attrs == [] then default
    else
      var a := attrs[|attrs| - 1];
      if Named(a, name) then a.value.value.number else LastNumber(attrs[..|attrs| - 1], name, default)
  }

  function LastName(attrs: seq<TemplateAttribute>): string {
    if attrs == [] then ""
    else
      var a := attrs[|attrs| - 1];
      if Named(a, "Name") && a.value.value.nameValue.Some? then a.value.value.nameValue.value
      else LastName(attrs[..|attrs| - 1])
  }

  datatype Template = Template(name: string, algorithm: int, length: int, usageMask: int)

  function TemplateOf(attrs: seq<TemplateAttribute>, default: Template): Template {
    Template(LastName(attrs),
             LastNumber(attrs, "Cryptographic Algorithm", default.algorithm),
             LastNumber(attrs, "Cryptographic Length", default.length),
             LastNumber(attrs, "Cryptographic Usage Mask", default.usageMask))
  }

  /** The attribute loop: a later attribute overrides an earlier one. */
  method ReadTemplate(attrs: seq<TemplateAttribute>, default: Template) returns (t: Template)
    requires default.name == ""
    ensures t == TemplateOf(attrs, default)
    ensures GivesName(attrs, t.name)
    ensures GivesNumber(attrs, "Cryptographic Algorithm", default.algorithm, t.algorithm)
    ensures GivesNumber(attrs, "Cryptographic Length", default.length, t.length)
    ensures GivesNumber(attrs, "Cryptographic Usage Mask", default.usageMask, t.usageMask)
  {
    t := default;
    for i := 0 to |attrs|
      invariant t == TemplateOf(attrs[..i], default)
    {
      var a := attrs[i];
      assert attrs[..i + 1][..i] == attrs[..i];
      if a.name.None? || a.value.None? {
        continue;
      }
      var v := a.value.value;
      if a.name.value == "Name" {
        if v.nameValue.Some? {
          t := t.(name := v.nameValue.value);
        }
      } else if a.name.value == "Cryptographic Algorithm" {
        t := t.(algorithm := v.number);
      } else if a.name.value == "Cryptographic Length" {
        t := t.(length := v.number);
      } else if a.name.value == "Cryptographic Usage Mask" {
        t := t.(usageMask := v.number);
      }
    }
    assert attrs[..|attrs|] == attrs;
    NameGiven(attrs, t.name);
    NumberGiven(attrs, "Cryptographic Algorithm", default.algorithm, t.algorithm);
    NumberGiven(attrs, "Cryptographic Length", default.length, t.length);
    NumberGiven(attrs, "Cryptographic Usage Mask", default.usageMask, t.usageMask);
  }

  /** What a handler does next: answer, or make a storage call. */
  datatype Plan = Answer(resp: ItemResponse) | Ask(call: Call)

  function Refuse(op: Operation, reason: int): Plan {
    Answer(Failure(Some(op), reason))
  }

  predicate HasUid(p: Option<Payload>) {
    p.Some? && p.value.uid.Some?
  }

  function PlanCreate(p: Option<Payload>, clientCN: string): Plan {
    if p.None? then Refuse(OpCreate, REASON_MISSING_DATA)
    else
      var t := TemplateOf(p.value.template, Template("", ALGORITHM_AES, 256, USAGE_ENCRYPT_DECRYPT));
      Ask(Create(t.name, t.algorithm, t.length, t.usageMask, clientCN))
  }

  /** Curve sizes other than 256, 384 and 521 fall back to 256. */
  function PairTemplate(p: Payload): Template {
    var t := TemplateOf(p.template, Template("", ALGORITHM_RSA, 2048, USAGE_SIGN_VERIFY));
    if t.algorithm == ALGORITHM_ECDSA && t.length != 256 && t.length != 384 && t.length != 521
    then t.(length := 256) else t
  }

  function PairRecord(t: Template, objectType: int, material: bytes): KeyRecord {
    KeyRecord("", t.name, objectType, t.algorithm, t.length, material, t.usageMask, 0, 0, "", 0, 0)
  }

  function PlanCreateKeyPair(p: Option<Payload>, o: Oracle): Plan {
    if p.None? then Refuse(OpCreateKeyPair, REASON_MISSING_DATA)
    else
      var t := PairTemplate(p.value);
      if t.algorithm != ALGORITHM_RSA && t.algorithm != ALGORITHM_ECDSA then Refuse(OpCreateKeyPair, REASON_INVALID_FIELD)
      else if o.keyPair.None? then Refuse(OpCreateKeyPair, REASON_CRYPTOGRAPHIC_FAILURE)
      else Ask(Register(PairRecord(t, PRIVATE_KEY, o.keyPair.value.0)))
  }

  function PlanRegister(p: Option<Payload>): Plan {
    if p.None? then Refuse(OpRegister, REASON_MISSING_DATA)
    else
      var q := p.value;
      var objectType := if q.objectType.Some? then q.objectType.value else SYMMETRIC_KEY;
      var wrapper :=
        if objectType == PUBLIC_KEY then q.publicKey
        else if objectType == PRIVATE_KEY then q.privateKey
        else if objectType == CERTIFICATE then None
        else q.symmetricKey;
      var block := if wrapper.Some? then wrapper.value else KeyBlock(None, None, None);
      var material := if objectType == CERTIFICATE then q.certificate else block.material;
      if material.None? then Refuse(OpRegister, REASON_MISSING_DATA)
      else
        Ask(Register(KeyRecord("", LastName(q.template), objectType,
          if block.algorithm.Some? then block.algorithm.value else ALGORITHM_AES,
          if block.length.Some? then block.length.value else 256,
          material.value,
          LastNumber(q.template, "Cryptographic Usage Mask", USAGE_ENCRYPT_DECRYPT),
          0, 0, "", 0, 0)))
  }

  function PlanAttribute(op: Operation, p: Option<Payload>): Plan {
    if !HasUid(p) || p.value.attribute.None? then Refuse(op, REASON_MISSING_DATA)
    else
      var uid, a := p.value.uid.value, p.value.attribute.value;
      if a.name.None? || (op != OpDeleteAttribute && a.value.None?) then Refuse(op, REASON_MISSING_DATA)
      else if op == OpDeleteAttribute then Ask(DeleteCustomAttribute(uid, a.name.value))
      else Ask(SetCustomAttribute(uid, a.name.value, a.value.value))
  }

  function PlanDerive(p: Option<Payload>): Plan {
    if !HasUid(p) then Refuse(OpDeriveKey, REASON_MISSING_DATA)
    else
      var q := p.value;
      Ask(DeriveKey(q.uid.value, if q.derivationData.Some? then q.derivationData.value else [],
                    LastName(q.template), LastNumber(q.template, "Cryptographic Length", 256)))
  }

  /** Operations that only use key material. */
  predicate IsUse(op: Operation) {
    op == OpEncrypt || op == OpDecrypt || op == OpSign || op == OpSignatureVerify || op == OpMAC
  }

  /** Operations that read a record, pass the gate and then change it. */
  predicate IsTransition(op: Operation) {
    op == OpActivate || op == OpRevoke || op == OpDestroy || op == OpArchive || op == OpRecover || op == OpReKey
  }

  /** Before the first storage call. */
  function Start(item: BatchItem, clientCN: string, o: Oracle): Plan {
    if item.operation.None? then Answer(Failure(None, REASON_INVALID_MESSAGE))
    else
      var op, p := item.operation.value, item.payload;
      match op
      case OpCreate => PlanCreate(p, clientCN)
      case OpCreateKeyPair => PlanCreateKeyPair(p, o)
      case OpRegister => PlanRegister(p)
      case OpDeriveKey => PlanDerive(p)
      case OpLocate => Ask(Locate(if p.Some? && p.value.locateName.Some? then p.value.locateName.value else ""))
      case OpAddAttribute => PlanAttribute(op, p)
      case OpModifyAttribute => PlanAttribute(op, p)
      case OpDeleteAttribute => PlanAttribute(op, p)
      case OpQuery => Answer(Success(op, Capabilities))
      case OpPoll => Answer(Success(op, Empty))
      case OpDiscoverVersions => Answer(Success(op, Version(SUPPORTED_MAJOR, SUPPORTED_MINOR)))
      case OpUnknown(code) =>
        Answer(Failure(if code == 0 then None else Some(op), REASON_OPERATION_NOT_SUPPORTED))
      case _ =>
        if !HasUid(p) then Refuse(op, REASON_MISSING_DATA)
        else if IsUse(op) && p.value.data.None? then Refuse(op, REASON_MISSING_DATA)
        else if op == OpDecrypt && p.value.nonce.None? then Refuse(op, REASON_MISSING_DATA)
        else if op == OpSignatureVerify && p.value.signature.None? then Refuse(op, REASON_MISSING_DATA)
        else if op == OpGetAttributes then Ask(GetAttributes(p.value.uid.value))
        else Ask(Get(p.value.uid.value))
  }

  /** The change an admitted transition asks for. */
  function TransitionCall(op: Operation, p: Payload): Call
    requires IsTransition(op) && p.uid.Some?
  {
    var uid := p.uid.value;
    match op
    case OpActivate => Activate(uid)
    case OpRevoke => Revoke(uid, if p.revocationCode.Some? then p.revocationCode.value else 0)
    case OpDestroy => Destroy(uid)
    case OpArchive => Archive(uid)
    case OpRecover => Recover(uid)
    case OpReKey => Rekey(uid)
  }

  /** A use of an Active key. A failed random source leaves a zero nonce. */
  function Use(su: Suite, op: Operation, p: Payload, rec: KeyRecord, o: Oracle): ItemResponse
    requires IsUse(op) && p.data.Some?
    requires op == OpDecrypt ==> p.nonce.Some?
    requires op == OpSignatureVerify ==> p.signature.Some?
  {
    var data := p.data.value;
    match op
    case OpEncrypt =>
      if rec.objectType != SYMMETRIC_KEY then Failure(Some(op), REASON_INVALID_FIELD)
      else if !ValidAesKey(rec.material) then Failure(Some(op), REASON_CRYPTOGRAPHIC_FAILURE)
      else
        var nonce := if o.first.entropy.Some? then RandomBytes(o.first.entropy.value, GCM_NONCE_SIZE) else Zeros(GCM_NONCE_SIZE);
        Success(op, Encrypted(rec.uid, su.seal(rec.material, nonce, data), nonce))
    case OpDecrypt =>
      if rec.objectType != SYMMETRIC_KEY then Failure(Some(op), REASON_INVALID_FIELD)
      else if !ValidAesKey(rec.material) then Failure(Some(op), REASON_CRYPTOGRAPHIC_FAILURE)
      else if |p.nonce.value| != GCM_NONCE_SIZE then Failure(Some(op), REASON_INVALID_FIELD)
      else
        var plain := su.open(rec.material, p.nonce.value, data);
        if plain.None? then Failure(Some(op), REASON_CRYPTOGRAPHIC_FAILURE) else Success(op, Decrypted(rec.uid, plain.value))
    case OpSign =>
      if rec.objectType != PRIVATE_KEY then Failure(Some(op), REASON_INVALID_FIELD)
      else
        var sig := su.sign(rec.material, data, o.seed);
        if sig.None? then Failure(Some(op), REASON_CRYPTOGRAPHIC_FAILURE) else Success(op, Signed(rec.uid, sig.value))
    case OpSignatureVerify =>
      if rec.objectType != PUBLIC_KEY then Failure(Some(op), REASON_INVALID_FIELD)
      else
        var ok := su.verify(rec.material, data, p.signature.value);
        if ok.None? then Failure(Some(op), REASON_CRYPTOGRAPHIC_FAILURE)
        else Success(op, Verified(rec.uid, if ok.value then 0 else 1))
    case OpMAC =>
      if rec.objectType != SYMMETRIC_KEY then Failure(Some(op), REASON_INVALID_FIELD)
      else Success(op, Maced(rec.uid, su.mac(rec.material, data)))
  }

  /** After a lookup found `rec`. */
  function AfterLookup(su: Suite, op: Operation, p: Payload, rec: KeyRecord, o: Oracle): Plan
    requires p.uid.Some?
    requires IsUse(op) ==> p.data.Some?
    requires op == OpDecrypt ==> p.nonce.Some?
    requires op == OpSignatureVerify ==> p.signature.Some?
  {
    var gate := ValidateStateTransition(rec.state, op);
    if gate.Some? then Refuse(op, gate.value)
    else if IsTransition(op) then Ask(TransitionCall(op, p))
    else if IsUse(op) then Answer(Use(su, op, p, rec, o))
    else
      match op
      case OpGet =>
        if rec.objectType == CERTIFICATE then Answer(Success(op, Certificate(rec.objectType, rec.uid, rec.material)))
        else Answer(Success(op, Key(rec.objectType, rec.uid, rec.material, rec.algorithm, rec.length)))
      case OpCheck => Answer(Success(op, Uid(rec.uid)))
      case OpGetAttributes =>
        Answer(Success(op, AttributesOf(rec.uid, rec.name, rec.objectType, rec.algorithm, rec.length, rec.usageMask,
                                        rec.state, rec.createdAt / 1_000_000_000)))
      case OpGetAttributeList => Answer(Success(op, AttributeNames(p.uid.value)))
      case _ => Answer(Success(op, Lease(p.uid.value, 3600)))
  }

  predicate IsLookup(c: Call) {
    c.Get? || c.GetAttributes?
  }

  /** Between the first storage call and the second. */
  function Continue(su: Suite, item: BatchItem, clientCN: string, o: Oracle, r: Reply): Plan
    requires Start(item, clientCN, o).Ask?
  {
    var op := item.operation.value;
    var call := Start(item, clientCN, o).call;
    if IsLookup(call) then
      if r.Found? then AfterLookup(su, op, item.payload.value, r.rec, o) else Refuse(op, REASON_ITEM_NOT_FOUND)
    else if r.Failed? then Refuse(op, REASON_GENERAL_FAILURE)
    else
      match r
      case Found(rec) =>
        if op == OpCreateKeyPair then Ask(Register(PairRecord(PairTemplate(item.payload.value), PUBLIC_KEY, o.keyPair.value.1)))
        else if op == OpCreate then Answer(Success(op, Object(rec.objectType, rec.uid)))
        else Answer(Success(op, Uid(rec.uid)))
      case Uids(uids) => Answer(Success(op, Located(uids)))
      case _ => Answer(Success(op, Uid(if HasUid(item.payload) then item.payload.value.uid.value else "")))
  }

  /** After the second storage call. */
  function Finish(item: BatchItem, r1: Reply, r2: Reply): ItemResponse
    requires item.operation.Some?
  {
    var op := item.operation.value;
    if r2.Failed? then Failure(Some(op), REASON_GENERAL_FAILURE)
    else if op == OpCreateKeyPair then
      if r1.Found? && r2.Found? then Success(op, KeyPair(r1.rec.uid, r2.rec.uid)) else Failure(Some(op), REASON_GENERAL_FAILURE)
    else if r2.Found? then Success(op, Uid(r2.rec.uid))
    else Success(op, Uid(if HasUid(item.payload) then item.payload.value.uid.value else ""))
  }

  /** One batch item against either backend. */
  ghost function ProcessItem(su: Suite, b: Backend, item: BatchItem, clientCN: string, o: Oracle): (Backend, ItemResponse) {
    match Start(item, clientCN, o)
    case Answer(resp) => (b, resp)
    case Ask(c1) =>
      var (b1, r1) := Invoke(su, b, c1, o.first);
      match Continue(su, item, clientCN, o, r1)
      case Answer(resp) => (b1, resp)
      case Ask(c2) =>
        var (b2, r2) := Invoke(su, b1, c2, o.second);
        (b2, Finish(item, r1, r2))
  }

  /** A decoded request message. `version` holds the major and, if given, the minor number. */
  datatype Message =
    | Undecodable
    | WrongTag
    | RequestMessage(version: Option<(int, Option<int>)>, items: seq<BatchItem>)

  datatype Response = Response(batchCount: int, items: seq<ItemResponse>)

  predicate VersionSupported(version: Option<(int, Option<int>)>) {
    version.None? ||
    var minor := if version.value.1.Some? then version.value.1.value else 0;
    !(version.value.0 > SUPPORTED_MAJOR || (version.value.0 == SUPPORTED_MAJOR && minor > SUPPORTED_MINOR))
  }

  function ErrorResponse(reason: int): Response {
    Response(1, [Failure(None, reason)])
  }

  /** The items of a batch one after the other. */
  ghost function ProcessItems(su: Suite, b: Backend, items: seq<BatchItem>, clientCN: string, os: seq<Oracle>): (r: (Backend, seq<ItemResponse>))
    requires |os| == |items|
    ensures |r.1| == |items|
  {
    if items == [] then (b, [])
    else
      var n := |items| - 1;
      var (b', resps) := ProcessItems(su, b, items[..n], clientCN, os[..n]);
      var (b'', resp) := ProcessItem(su, b', items[n], clientCN, os[n]);
      (b'', resps + [resp])
  }

  ghost function HandleMessage(su: Suite, b: Backend, m: Message, clientCN: string, os: seq<Oracle>): (Backend, Response)
    requires m.RequestMessage? ==> |os| == |m.items|
  {
    match m
    case Undecodable => (b, ErrorResponse(REASON_INVALID_MESSAGE))
    case WrongTag => (b, ErrorResponse(REASON_INVALID_MESSAGE))
    case RequestMessage(version, items) =>
      if !VersionSupported(version) then (b, ErrorResponse(REASON_FEATURE_NOT_SUPPORTED))
      else if |items| == 0 then (b, ErrorResponse(REASON_INVALID_MESSAGE))
      else if |items| > MAX_BATCH_ITEMS then (b, ErrorResponse(REASON_RESPONSE_TOO_LARGE))
      else
        var (b', resps) := ProcessItems(su, b, items, clientCN, os);
        (b', Response(|resps|, resps))
  }

  /** The request handler over a store object. */
  class Handler {
    const store: StoreRef
    const suite: Suite

    constructor (suite: Suite, store: StoreRef)
      ensures this.store == store && this.suite == suite
    {
      this.suite, this.store := suite, store;
    }

    method ProcessBatchItem(item: BatchItem, clientCN: string, o: Oracle) returns (resp: ItemResponse)
      requires Valid(store)
      modifies Footprint(store)
      ensures Valid(store) && fresh(Footprint(store) - old(Footprint(store)))
      ensures (Value(store), resp) == ProcessItem(suite, old(Value(store)), item, clientCN, o)
    {
      var plan := Start(item, clientCN, o);
      if plan.Answer? {
        return plan.resp;
      }
      var r1 := Dispatch(suite, store, plan.call, o.first);
      var next := Continue(suite, item, clientCN, o, r1);
      if next.Answer? {
        return next.resp;
      }
      var r2 := Dispatch(suite, store, next.call, o.second);
      resp := Finish(item, r1, r2);
    }

    method HandleRequest(m: Message, clientCN: string, os: seq<Oracle>) returns (resp: Response)
      requires Valid(store)
      requires m.RequestMessage? ==> |os| == |m.items|
      modifies Footprint(store)
      ensures Valid(store) && fresh(Footprint(store) - old(Footprint(store)))
      ensures (Value(store), resp) == HandleMessage(suite, old(Value(store)), m, clientCN, os)
    {
      if !m.RequestMessage? {
        return ErrorResponse(REASON_INVALID_MESSAGE);
      }
      if !VersionSupported(m.version) {
        return ErrorResponse(REASON_FEATURE_NOT_SUPPORTED);
      }
      if |m.items| == 0 {
        return ErrorResponse(REASON_INVALID_MESSAGE);
      }
      if |m.items| > MAX_BATCH_ITEMS {
        return ErrorResponse(REASON_RESPONSE_TOO_LARGE);
      }
      var resps := [];
      for i := 0 to |m.items|
        invariant Valid(store) && fresh(Footprint(store) - old(Footprint(store)))
        invariant (Value(store), resps) == ProcessItems(suite, old(Value(store)), m.items[..i], clientCN, os[..i])
      {
        var r := ProcessBatchItem(m.items[i], clientCN, os[i]);
        resps := resps + [r];
        assert m.items[..i + 1][..i] == m.items[..i] && os[..i + 1][..i] == os[..i];
      }
      assert m.items[..|m.items|] == m.items && os[..|m.items|] == os;
      resp := Response(|resps|, resps);
    }
  }
}
