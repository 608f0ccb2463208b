/** Wire object identifiers of the transport, the node's id counter, and the
    fixed-size GID buffer through which an identifier is exported. */
module ObjectIds {
  import opened Common

  /** Kind tag of a requester (a client endpoint), `UXR_REQUESTER_ID`. */
  const REQUESTER_KIND: byte := 0x07

  /** An object identifier: the counter value and the kind tag. */
  datatype ObjectId = ObjectId(id: uint16, kind: byte)

  /** `sizeof(uxrObjectId)`: two id bytes, one kind byte, one padding byte. */
  const OBJECT_ID_SIZE: nat := 4

  /** The in-memory bytes of an object identifier, least significant id byte
      first; the padding byte is taken to be zero. */
  function ObjectIdBytes(o: ObjectId): (b: seq<byte>)
    ensures |b| == OBJECT_ID_SIZE
  {
    [(o.id as int % 0x100) as byte, (o.id as int / 0x100) as byte, o.kind, 0]
  }

  /** Reads an object identifier back from the start of a byte buffer. */
  function DecodeObjectId(b: seq<byte>): ObjectId
    requires |b| >= OBJECT_ID_SIZE
  {
    ObjectId((b[0] as int + 0x100 * b[1] as int) as uint16, b[2])
  }

  /** Decoding the bytes of an identifier gives the identifier back. */
  lemma ObjectIdRoundTrip(o: ObjectId)
    ensures DecodeObjectId(ObjectIdBytes(o)) == o
  {
  }

  /** `n` zero bytes, what `memset(buf, 0, n)` leaves. */
  function Zeros(n: nat): (z: seq<byte>)
    ensures |z| == n && forall i :: 0 <= i < n ==> z[i] == 0
  {
    seq(n, _ => 0)
  }

  /** The contents of a GID buffer of `size` bytes after it has been zeroed
      and the identifier copied to its start. */
  function GidBytes(o: ObjectId, size: nat): (g: seq<byte>)
    requires OBJECT_ID_SIZE <= size
    ensures |g| == size
    ensures g[..OBJECT_ID_SIZE] == ObjectIdBytes(o)
    ensures forall i :: OBJECT_ID_SIZE <= i < size ==> g[i] == 0
  {
    ObjectIdBytes(o) + Zeros(size - OBJECT_ID_SIZE)
  }

  /** The identifier round-trips through the exported GID buffer. */
  lemma GidRoundTrip(o: ObjectId, size: nat)
    requires OBJECT_ID_SIZE <= size
    ensures DecodeObjectId(GidBytes(o, size)) == o
  {
  }

  /** Two clients with different identifiers export different GIDs. */
  lemma GidInjective(o1: ObjectId, o2: ObjectId, size: nat)
    requires OBJECT_ID_SIZE <= size
    ensures GidBytes(o1, size) == GidBytes(o2, size) <==> o1 == o2
  {
  }

  /** The node counter after a post-increment: `uint16_t` wraps to zero. */
  function NextCounter(x: uint16): uint16
  {
    ((x as int + 1) % UINT16_MODULUS) as uint16
  }

  /** The counter after `k` identifiers have been drawn starting from `start`. */
  function CounterAfter(start: uint16, k: nat): uint16
  {
    if k == 0 then start else NextCounter(CounterAfter(start, k - 1))
  }

  /** One post-increment of a counter that already holds `x` modulo 2^16. */
  lemma NextCounterOfResidue(x: nat)
    ensures NextCounter((x % UINT16_MODULUS) as uint16) as int == (x + 1) % UINT16_MODULUS
  {
  }

  /** Drawing `k` identifiers moves the counter `k` steps, modulo 2^16. */
  lemma {:induction false} CounterAfterIsOffset(start: uint16, k: nat)
    ensures CounterAfter(start, k) as int == (start as int + k) % UINT16_MODULUS
  {
    if k > 0 {
      CounterAfterIsOffset(start, k - 1);
      NextCounterOfResidue(start as int + k - 1);
    }
  }

  /** Identifiers drawn by one node are pairwise distinct as long as fewer
      than 2^16 of them have been drawn. */
  lemma DrawnIdsDistinct(start: uint16, i: nat, j: nat, kind: byte)
    requires i < j < UINT16_MODULUS
    ensures ObjectId(CounterAfter(start, i), kind) != ObjectId(CounterAfter(start, j), kind)
  {
    CounterAfterIsOffset(start, i);
    CounterAfterIsOffset(start, j);
    var s := start as int;
    var qi, ri := (s + i) / UINT16_MODULUS, (s + i) % UINT16_MODULUS;
    var qj, rj := (s + j) / UINT16_MODULUS, (s + j) % UINT16_MODULUS;
    assert s + i == qi * UINT16_MODULUS + ri;
    assert s + j == qj * UINT16_MODULUS + rj;
  }

  /** Adding the modulus does not change a residue. */
  lemma ResidueShift(x: nat)
    ensures (x + UINT16_MODULUS) % UINT16_MODULUS == x % UINT16_MODULUS
  {
  }

  /** The counter repeats with period 2^16: the identifier drawn 2^16 draws
      after another is the same one, so uniqueness holds only until
      wrap-around. */
  lemma CounterPeriodic(start: uint16, k: nat)
    ensures CounterAfter(start, k + UINT16_MODULUS) == CounterAfter(start, k)
  {
    CounterAfterIsOffset(start, k);
    CounterAfterIsOffset(start, k + UINT16_MODULUS);
    ResidueShift(start as int + k);
  }
}
