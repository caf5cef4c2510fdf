/** The keys items bring into being: field by field, from the template and the payload,
    with the numbers of KMIP 1.4, and when the item succeeds at all. */
module Births {
  import opened KeyTypes
  import opened StoreModel
  import opened Storage
  import opened Kmip
  import opened Lifecycle
  import opened Answers

  function OrElse(x: Option<int>, default: int): int {
    if x.Some? then x.value else default
  }

  /** The object type of a registration: a symmetric key unless another is named. */
  function TypeOffered(p: Payload): int {
    OrElse(p.objectType, 2)
  }

  /** Where an object of that type carries its values: certificates (1) by themselves,
      public (3) and private (4) keys in blocks of their own, anything else as a
      symmetric key. */
  function BlockOffered(p: Payload): KeyBlock {
    var t := TypeOffered(p);
    var block := if t == 1 then None else if t == 3 then p.publicKey else if t == 4 then p.privateKey else p.symmetricKey;
    if block.Some? then block.value else KeyBlock(None, None, None)
  }

  function MaterialOffered(p: Payload): Option<bytes> {
    if TypeOffered(p) == 1 then p.certificate else BlockOffered(p).material
  }

  /** A new key: PreActive (1), version 1, stored under its own uid. */
  predicate Newborn(rec: KeyRecord, uid: string, objectType: int, owner: string, now: int) {
    rec.uid == uid && rec.objectType == objectType && rec.owner == owner && rec.createdAt == now && rec.state == 1 && rec.version == 1
  }

  ghost predicate NamedBy(rec: KeyRecord, attrs: seq<TemplateAttribute>, mask: int) {
    GivesName(attrs, rec.name) && GivesNumber(attrs, "Cryptographic Usage Mask", mask, rec.usageMask)
  }

  /** AES (3), 256 bits and Encrypt with Decrypt (12) unless the template says otherwise. */
  ghost predicate CreatedBy(s: Step, p: Payload, uid: string, rec: KeyRecord) {
    && uid == s.o.first.uid && Newborn(rec, uid, 2, s.clientCN, s.o.first.now) && NamedBy(rec, p.template, 12)
    && GivesNumber(p.template, "Cryptographic Algorithm", 3, rec.algorithm)
    && GivesNumber(p.template, "Cryptographic Length", 256, rec.length)
    && rec.length >= 0 && Drawn(rec.material, s.o.first.entropy, rec.length / 8)
  }

  ghost predicate RegisteredBy(s: Step, p: Payload, uid: string, rec: KeyRecord) {
    && uid == s.o.first.uid && Newborn(rec, uid, TypeOffered(p), "", s.o.first.now) && NamedBy(rec, p.template, 12)
    && rec.algorithm == OrElse(BlockOffered(p).algorithm, 3) && rec.length == OrElse(BlockOffered(p).length, 256)
    && MaterialOffered(p) == Some(rec.material)
  }

  /** RSA (4), 2048 bits and Sign with Verify (3) unless the template says otherwise; an
      ECDSA (6) size that names no curve is taken as 256. */
  ghost predicate PairLength(p: Payload, algorithm: int, length: int) {
    exists asked :: GivesNumber(p.template, "Cryptographic Length", 2048, asked)
      && length == if algorithm == 6 && asked !in {256, 384, 521} then 256 else asked
  }

  ghost predicate PairedBy(s: Step, p: Payload, uid: string, rec: KeyRecord) {
    && s.o.keyPair.Some? && NamedBy(rec, p.template, 3)
    && GivesNumber(p.template, "Cryptographic Algorithm", 4, rec.algorithm) && PairLength(p, rec.algorithm, rec.length)
    && ((uid == s.o.first.uid && Newborn(rec, uid, 4, "", s.o.first.now) && rec.material == s.o.keyPair.value.0)
        || (uid == s.o.second.uid && Newborn(rec, uid, 3, "", s.o.second.now) && rec.material == s.o.keyPair.value.1))
  }

  /** Bytes asked of HKDF: an eighth of the bits, or 32 for less than eight. */
  function DerivedSize(length: int): nat {
    if length >= 8 then length / 8 else 32
  }

  ghost predicate DerivedBy(su: Suite, s: Step, p: Payload, src: KeyRecord, uid: string, rec: KeyRecord) {
    && uid == s.o.first.uid && Newborn(rec, uid, 2, src.owner, s.o.first.now) && GivesName(p.template, rec.name)
    && GivesNumber(p.template, "Cryptographic Length", 256, rec.length)
    && rec.algorithm == src.algorithm && rec.usageMask == src.usageMask
    && rec.material == su.hkdf(src.material, if p.derivationData.Some? then p.derivationData.value else [], DerivedSize(rec.length))
  }

  /** The record a creating item makes; `src` matters to a derivation alone. */
  ghost predicate BornBy(su: Suite, s: Step, src: KeyRecord, uid: string, rec: KeyRecord) {
    && s.item.operation.Some? && s.item.payload.Some?
    && match s.item.operation.value
       case OpCreate => CreatedBy(s, s.item.payload.value, uid, rec)
       case OpRegister => RegisteredBy(s, s.item.payload.value, uid, rec)
       case OpCreateKeyPair => PairedBy(s, s.item.payload.value, uid, rec)
       case OpDeriveKey => DerivedBy(su, s, s.item.payload.value, src, uid, rec)
       case _ => false
  }

  lemma CreateBears(su: Suite, st: Store, s: Step, length: int)
    requires s.item.operation == Some(OpCreate)
    requires s.item.payload.Some? ==> GivesNumber(s.item.payload.value.template, "Cryptographic Length", 256, length)
    ensures var (b', resp) := ProcessItem(su, Mem(st), s.item, s.clientCN, s.o);
      var uid := s.o.first.uid;
      && resp == (if s.item.payload.None? then Failure(Some(OpCreate), 0x06)
                  else if 1 <= length <= 32768 && s.o.first.entropy.Some? then Success(OpCreate, Object(2, uid))
                  else Failure(Some(OpCreate), 0x100))
      && (resp.Success? ==> b'.Mem? && uid in b'.st.keys && CreatedBy(s, s.item.payload.value, uid, b'.st.keys[uid]))
  {
    if s.item.payload.Some? {
      var attrs := s.item.payload.value.template;
      NumberGiven(attrs, "Cryptographic Length", 256, length);
      NumberGiven(attrs, "Cryptographic Algorithm", 3, LastNumber(attrs, "Cryptographic Algorithm", 3));
      NumberGiven(attrs, "Cryptographic Usage Mask", 12, LastNumber(attrs, "Cryptographic Usage Mask", 12));
      NameGiven(attrs, LastName(attrs));
    }
  }

  lemma RegisterBears(su: Suite, st: Store, s: Step)
    requires s.item.operation == Some(OpRegister)
    ensures var (b', resp) := ProcessItem(su, Mem(st), s.item, s.clientCN, s.o);
      var uid := s.o.first.uid;
      && resp == (if s.item.payload.None? || MaterialOffered(s.item.payload.value).None? then Failure(Some(OpRegister), 0x06)
                  else if TypeOffered(s.item.payload.value) != 1 && OrElse(BlockOffered(s.item.payload.value).length, 256) < 0
                  then Failure(Some(OpRegister), 0x100)
                  else Success(OpRegister, Uid(uid)))
      && (resp.Success? ==> b'.Mem? && uid in b'.st.keys && RegisteredBy(s, s.item.payload.value, uid, b'.st.keys[uid]))
  {
    RegisterStart(s);
  }

  /** A registration asks for one storage call, with every field decided by the payload. */
  lemma RegisterStart(s: Step)
    requires s.item.operation == Some(OpRegister)
    ensures var plan := Start(s.item, s.clientCN, s.o);
      if s.item.payload.None? || MaterialOffered(s.item.payload.value).None? then plan == Answer(Failure(Some(OpRegister), 0x06))
      else plan.Ask? && plan.call.Register? && RegisteredBy(s, s.item.payload.value, s.o.first.uid, Registered(plan.call.rec, s.o.first))
  {
    if s.item.payload.Some? {
      var attrs := s.item.payload.value.template;
      NumberGiven(attrs, "Cryptographic Usage Mask", 12, LastNumber(attrs, "Cryptographic Usage Mask", 12));
      NameGiven(attrs, LastName(attrs));
    }
  }

  /** The template of a pair, by position. */
  lemma PairTemplateGiven(p: Payload, algorithm: int, length: int)
    requires GivesNumber(p.template, "Cryptographic Algorithm", 4, algorithm) && PairLength(p, algorithm, length)
    ensures var t := PairTemplate(p);
      && t.algorithm == algorithm && t.length == length && GivesName(p.template, t.name)
      && GivesNumber(p.template, "Cryptographic Usage Mask", 3, t.usageMask)
  {
    var asked :| GivesNumber(p.template, "Cryptographic Length", 2048, asked)
      && length == if algorithm == 6 && asked !in {256, 384, 521} then 256 else asked;
    NumberGiven(p.template, "Cryptographic Algorithm", 4, algorithm);
    NumberGiven(p.template, "Cryptographic Length", 2048, asked);
    NumberGiven(p.template, "Cryptographic Usage Mask", 3, LastNumber(p.template, "Cryptographic Usage Mask", 3));
    NameGiven(p.template, LastName(p.template));
  }

  lemma PairBears(su: Suite, st: Store, s: Step, algorithm: int, length: int)
    requires s.item.operation == Some(OpCreateKeyPair) && s.o.first.uid != s.o.second.uid
    requires s.item.payload.Some? ==>
      GivesNumber(s.item.payload.value.template, "Cryptographic Algorithm", 4, algorithm) && PairLength(s.item.payload.value, algorithm, length)
    ensures var (b', resp) := ProcessItem(su, Mem(st), s.item, s.clientCN, s.o);
      && resp == (if s.item.payload.None? then Failure(Some(OpCreateKeyPair), 0x06)
                  else if algorithm != 4 && algorithm != 6 then Failure(Some(OpCreateKeyPair), 0x07)
                  else if s.o.keyPair.None? then Failure(Some(OpCreateKeyPair), 0x0A)
                  else if length < 0 then Failure(Some(OpCreateKeyPair), 0x100)
                  else Success(OpCreateKeyPair, KeyPair(s.o.first.uid, s.o.second.uid)))
      && (resp.Success? ==>
            && b'.Mem? && s.o.first.uid in b'.st.keys && s.o.second.uid in b'.st.keys
            && PairedBy(s, s.item.payload.value, s.o.first.uid, b'.st.keys[s.o.first.uid])
            && PairedBy(s, s.item.payload.value, s.o.second.uid, b'.st.keys[s.o.second.uid]))
  {
    PairStart(s, algorithm, length);
    if Start(s.item, s.clientCN, s.o).Ask? {
      PairCreated(su, st, s.item, s.clientCN, s.o);
      PairHalves(s, s.item.payload.value, algorithm, length);
    }
  }

  lemma PairStart(s: Step, algorithm: int, length: int)
    requires s.item.operation == Some(OpCreateKeyPair)
    requires s.item.payload.Some? ==>
      GivesNumber(s.item.payload.value.template, "Cryptographic Algorithm", 4, algorithm) && PairLength(s.item.payload.value, algorithm, length)
    ensures var plan := Start(s.item, s.clientCN, s.o);
      if s.item.payload.None? then plan == Answer(Failure(Some(OpCreateKeyPair), 0x06))
      else if algorithm != 4 && algorithm != 6 then plan == Answer(Failure(Some(OpCreateKeyPair), 0x07))
      else if s.o.keyPair.None? then plan == Answer(Failure(Some(OpCreateKeyPair), 0x0A))
      else plan.Ask? && PairTemplate(s.item.payload.value).length == length
  {
    if s.item.payload.Some? {
      PairTemplateGiven(s.item.payload.value, algorithm, length);
    }
  }

  lemma PairHalves(s: Step, p: Payload, algorithm: int, length: int)
    requires s.o.keyPair.Some? && GivesNumber(p.template, "Cryptographic Algorithm", 4, algorithm) && PairLength(p, algorithm, length)
    ensures PairedBy(s, p, s.o.first.uid, Registered(PairRecord(PairTemplate(p), PRIVATE_KEY, s.o.keyPair.value.0), s.o.first))
    ensures PairedBy(s, p, s.o.second.uid, Registered(PairRecord(PairTemplate(p), PUBLIC_KEY, s.o.keyPair.value.1), s.o.second))
  {
    PairTemplateGiven(p, algorithm, length);
  }

  lemma DeriveBears(su: Suite, st: Store, s: Step, length: int)
    requires s.item.operation == Some(OpDeriveKey)
    requires s.item.payload.Some? ==> GivesNumber(s.item.payload.value.template, "Cryptographic Length", 256, length)
    ensures var (b', resp) := ProcessItem(su, Mem(st), s.item, s.clientCN, s.o);
      var uid, source := s.o.first.uid, UidNamed(s.item);
      && resp == (if s.item.payload.None? || s.item.payload.value.uid.None? then Failure(Some(OpDeriveKey), 0x06)
                  else if !(source in st.keys && st.keys[source].state != 5) || DerivedSize(length) > 512 then Failure(Some(OpDeriveKey), 0x100)
                  else Success(OpDeriveKey, Uid(uid)))
      && (resp.Success? ==> b'.Mem? && uid in b'.st.keys && DerivedBy(su, s, s.item.payload.value, st.keys[source], uid, b'.st.keys[uid]))
  {
    DeriveStart(s, length);
  }

  lemma DeriveStart(s: Step, length: int)
    requires s.item.operation == Some(OpDeriveKey)
    requires s.item.payload.Some? ==> GivesNumber(s.item.payload.value.template, "Cryptographic Length", 256, length)
    ensures var plan := Start(s.item, s.clientCN, s.o);
      if s.item.payload.None? || s.item.payload.value.uid.None? then plan == Answer(Failure(Some(OpDeriveKey), 0x06))
      else
        && plan.Ask? && plan.call.DeriveKey? && plan.call.source == UidNamed(s.item) && plan.call.length == length
        && GivesName(s.item.payload.value.template, plan.call.name)
        && plan.call.data == if s.item.payload.value.derivationData.Some? then s.item.payload.value.derivationData.value else []
  {
    if s.item.payload.Some? {
      NumberGiven(s.item.payload.value.template, "Cryptographic Length", 256, length);
      NameGiven(s.item.payload.value.template, LastName(s.item.payload.value.template));
    }
  }
}
