/** Shared vocabulary of the key server: bytes, key states, key records, and the
    cryptographic primitives the server calls but does not implement. */
module KeyTypes {

  type byte = b: int | 0 <= b < 256
  type bytes = seq<byte>

  datatype Option<+T> = None | Some(value: T)

  /** Lifecycle states are integers, as they are in the record and in the table. */
  type KeyState = int

  const PRE_ACTIVE: KeyState := 1
  const ACTIVE: KeyState := 2
  const DEACTIVATED: KeyState := 3
  const COMPROMISED: KeyState := 4
  const DESTROYED: KeyState := 5
  const DESTROYED_COMPROMISED: KeyState := 6
  const ARCHIVED: KeyState := 100

  const MAX_KEY_LENGTH_BITS := 32768
  const MAX_DERIVED_KEY_BYTES := 512

  const CERTIFICATE := 1
  const SYMMETRIC_KEY := 2
  const PUBLIC_KEY := 3
  const PRIVATE_KEY := 4

  /** The value of one managed object. Times are integer nanoseconds. */
  datatype KeyRecord = KeyRecord(
    uid: string,
    name: string,
    objectType: int,
    algorithm: int,
    length: int,
    material: bytes,
    usageMask: int,
    state: KeyState,
    revocationReason: int,
    owner: string,
    createdAt: int,
    version: int)

  /** Whole bytes in a bit count, truncating toward zero. */
  function BytesIn(bits: int): (q: int)
    ensures bits >= 0 ==> 8 * q <= bits < 8 * q + 8
    ensures bits < 0 ==> 8 * q - 8 < bits <= 8 * q
  {
    if bits >= 0 then bits / 8 else -((-bits) / 8)
  }

  /** A stream of random bytes; `None` when the system source fails. */
  type Entropy = Option<nat -> byte>

  function RandomBytes(stream: nat -> byte, n: nat): (r: bytes)
    ensures |r| == n && forall i :: 0 <= i < n ==> r[i] == stream(i)
  {
    seq<byte>(n, i requires 0 <= i < n => stream(i))
  }

  /** `n` bytes drawn from the source in order. */
  predicate Drawn(r: bytes, source: Entropy, n: nat) {
    source.Some? && |r| == n && forall i :: 0 <= i < n ==> r[i] == source.value(i)
  }

  function Zeros(n: nat): (r: bytes)
    ensures |r| == n && forall i :: 0 <= i < n ==> r[i] == 0
  {
    seq<byte>(n, i => 0)
  }

  /** Largest HKDF-SHA256 output: 255 blocks of 32 bytes (section 2.3 of RFC 5869). */
  const HKDF_LIMIT := 8160
  const GCM_NONCE_SIZE := 12

  /** The primitives, as arbitrary functions. A `None` result is a reported error. */
  datatype Suite = Suite(
    hkdf: (bytes, bytes, nat) -> bytes,
    seal: (bytes, bytes, bytes) -> bytes,
    open: (bytes, bytes, bytes) -> Option<bytes>,
    mac: (bytes, bytes) -> bytes,
    sign: (bytes, bytes, int) -> Option<bytes>,
    verify: (bytes, bytes, bytes) -> Option<bool>)

  /** The two laws the proofs use: up to its limit HKDF yields as many bytes as asked
      for, and opening a sealed message with the same AES key and nonce gives the
      message back. */
  ghost predicate Lawful(su: Suite) {
    && (forall k: bytes, d: bytes, n: nat :: n <= HKDF_LIMIT ==> |su.hkdf(k, d, n)| == n)
    && (forall k: bytes, n: bytes, p: bytes :: ValidAesKey(k) && |n| == GCM_NONCE_SIZE ==> su.open(k, n, su.seal(k, n, p)) == Some(p))
  }

  /** A suite that meets the laws, so that theorems about lawful suites are not vacuous. */
  function TransparentSuite(): (su: Suite)
    ensures Lawful(su)
  {
    Suite((k, d, n) => Zeros(n), (k, n, p) => p, (k, n, c) => Some(c),
          (k, d) => d, (k, d, s) => Some(d), (k, d, s) => Some(d == s))
  }

  predicate ValidAesKey(material: bytes) {
    |material| == 16 || |material| == 24 || |material| == 32
  }
}
