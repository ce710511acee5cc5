/**
 Byte strings, and the fixed-width encodings of raiden/messages/transfers.py: the 96-byte
 lock, the concatenation of locks that is hashed into a locksroot, and the packed
 LockedTransfer that is hashed and signed.
 */
module LockCodec {

  newtype byte = x: int | 0 <= x < 256
  type Bytes = seq<byte>

  datatype Option<+T> = None | Some(value: T)

  const UINT256_MAX: nat := 0xFFFFFFFF_FFFFFFFF_FFFFFFFF_FFFFFFFF_FFFFFFFF_FFFFFFFF_FFFFFFFF_FFFFFFFF
  const UINT64_MAX: nat := 0xFFFFFFFF_FFFFFFFF
  const WORD := 32
  const LOCK_LENGTH := 96

  /** A 32-byte hash and a 20-byte address, each given by the big-endian number its bytes spell. */
  type Hash = n: nat | n <= UINT256_MAX
  type Address = n: nat | n <= 0xFFFFFFFF_FFFFFFFF_FFFFFFFF_FFFFFFFF_FFFFFFFF

  // ---------- int.to_bytes / int.from_bytes, byteorder="big" ----------

  function Pow256(n: nat): (p: nat)
    ensures p > 0
  {
    if n == 0 then 1 else 256 * Pow256(n - 1)
  }

  function ToBytes(v: nat, n: nat): (b: Bytes)
    requires v < Pow256(n)
    ensures |b| == n
  {
    if n == 0 then [] else ToBytes(v / 256, n - 1) + [(v % 256) as byte]
  }

  function FromBytes(b: Bytes): (v: nat)
    ensures v < Pow256(|b|)
  {
    if b == [] then 0 else 256 * FromBytes(b[..|b| - 1]) + b[|b| - 1] as nat
  }

  lemma {:induction false} FromToBytes(v: nat, n: nat)
    requires v < Pow256(n)
    ensures FromBytes(ToBytes(v, n)) == v
  {
    if n > 0 {
      FromToBytes(v / 256, n - 1);
      assert ToBytes(v, n)[..n - 1] == ToBytes(v / 256, n - 1);
    }
  }

  lemma {:induction false} ToFromBytes(b: Bytes)
    ensures ToBytes(FromBytes(b), |b|) == b
  {
    if b != [] {
      ToFromBytes(b[..|b| - 1]);
    }
  }

  lemma Pow256Add(m: nat, n: nat)
    ensures Pow256(m + n) == Pow256(m) * Pow256(n)
  {
    if m > 0 {
      Pow256Add(m - 1, n);
    }
  }

  lemma WordBound()
    ensures Pow256(32) == UINT256_MAX + 1 && Pow256(8) == UINT64_MAX + 1
    ensures Pow256(20) == 0x1_00000000_00000000_00000000_00000000_00000000
  {
    assert Pow256(4) == 0x1_00000000;
    Pow256Add(4, 4);
    assert Pow256(8) == 0x1_00000000_00000000;
    Pow256Add(8, 8);
    assert Pow256(16) == 0x1_00000000_00000000_00000000_00000000;
    Pow256Add(16, 16);
    Pow256Add(16, 4);
  }

  function Word(v: nat): (b: Bytes)
    requires v <= UINT256_MAX
    ensures |b| == WORD
  {
    WordBound();
    ToBytes(v, WORD)
  }

  function Dword(v: nat): (b: Bytes)
    requires v <= UINT64_MAX
    ensures |b| == 8
  {
    WordBound();
    ToBytes(v, 8)
  }

  function AddressBytes(a: Address): (b: Bytes)
    ensures |b| == 20
  {
    WordBound();
    ToBytes(a, 20)
  }

  // ---------- locks ----------

  datatype LockData = Lock(amount: nat, expiration: nat, secrethash: Hash)

  /** What `Lock.__post_init__` lets through. */
  type Lock = l: LockData | l.amount <= UINT256_MAX && l.expiration <= UINT256_MAX
    witness Lock(0, 0, 0)

  /** `Lock.as_bytes`. */
  function Encode(lock: Lock): (b: Bytes)
    ensures |b| == LOCK_LENGTH
  {
    Word(lock.expiration) + Word(lock.amount) + Word(lock.secrethash)
  }

  /** Python's `b[i:j]`, which never fails. */
  function Slice(b: Bytes, i: nat, j: nat): (s: Bytes)
    requires i <= j
    ensures |b| >= j ==> s == b[i..j]
    ensures |s| <= j - i
  {
    if |b| <= i then [] else if |b| <= j then b[i..] else b[i..j]
  }

  /** `Lock.from_bytes`: the constructor raises unless what follows byte 64 is a 32-byte hash. */
  function Decode(b: Bytes): (r: Option<Lock>)
    ensures r.Some? <==> |b| == LOCK_LENGTH
  {
    var rest := if |b| <= 64 then [] else b[64..];
    if |rest| != 32 then None else
    WordBound();
    Some(Lock(FromBytes(Slice(b, 32, 64)), FromBytes(Slice(b, 0, 32)), FromBytes(rest)))
  }

  lemma DecodeEncode(lock: Lock)
    ensures Decode(Encode(lock)) == Some(lock)
  {
    var b := Encode(lock);
    WordBound();
    assert b[0..32] == Word(lock.expiration) && b[32..64] == Word(lock.amount);
    assert b[64..] == Word(lock.secrethash);
    FromToBytes(lock.expiration, WORD);
    FromToBytes(lock.amount, WORD);
    FromToBytes(lock.secrethash, WORD);
  }

  lemma EncodeDecode(b: Bytes)
    requires |b| == LOCK_LENGTH
    ensures Decode(b).Some? && Encode(Decode(b).value) == b
  {
    ToFromBytes(b[0..32]);
    ToFromBytes(b[32..64]);
    ToFromBytes(b[64..]);
    assert b == b[0..32] + b[32..64] + b[64..];
  }

  lemma EncodeInjective(x: Lock, y: Lock)
    ensures Encode(x) == Encode(y) ==> x == y
  {
    DecodeEncode(x);
    DecodeEncode(y);
  }

  // ---------- the byte string under a locksroot ----------

  /** `b"".join(locks)`. */
  function Join(locks: seq<Bytes>): Bytes
  {
    if locks == [] then [] else locks[0] + Join(locks[1..])
  }

  ghost predicate AllLockSized(locks: seq<Bytes>)
  {
    forall enc :: enc in locks ==> |enc| == LOCK_LENGTH
  }

  /** The decoder a contract would use: cut the string into 96-byte pieces, if it has that shape. */
  function Split(b: Bytes): (r: Option<seq<Lock>>)
  {
    if b == [] then Some([])
    else if |b| < LOCK_LENGTH then None
    else
      var rest := Split(b[LOCK_LENGTH..]);
      if rest.None? then None else Some([Decode(b[..LOCK_LENGTH]).value] + rest.value)
  }

  function EncodeAll(locks: seq<Lock>): (encs: seq<Bytes>)
    ensures |encs| == |locks|
  {
    if locks == [] then [] else [Encode(locks[0])] + EncodeAll(locks[1..])
  }

  lemma {:induction false} SplitJoin(locks: seq<Lock>)
    ensures Split(Join(EncodeAll(locks))) == Some(locks)
  {
    if locks != [] {
      var first, rest := Encode(locks[0]), Join(EncodeAll(locks[1..]));
      var b := Join(EncodeAll(locks));
      assert EncodeAll(locks)[1..] == EncodeAll(locks[1..]);
      assert b == first + rest;
      assert b[..LOCK_LENGTH] == first && b[LOCK_LENGTH..] == rest;
      DecodeEncode(locks[0]);
      SplitJoin(locks[1..]);
      assert locks == [locks[0]] + locks[1..];
    }
  }

  /** Every 96-byte-aligned string is the join of exactly one lock sequence. */
  lemma {:induction false} JoinSplit(b: Bytes)
    ensures Split(b).Some? <==> |b| % LOCK_LENGTH == 0
    ensures Split(b).Some? ==> Join(EncodeAll(Split(b).value)) == b
  {
    hide Encode, Decode;
    if |b| >= LOCK_LENGTH {
      JoinSplit(b[LOCK_LENGTH..]);
      if Split(b).Some? {
        EncodeDecode(b[..LOCK_LENGTH]);
        var locks := Split(b).value;
        assert EncodeAll(locks)[1..] == EncodeAll(locks[1..]);
        assert b == b[..LOCK_LENGTH] + b[LOCK_LENGTH..];
      }
    }
  }

  /** Two pending-lock lists that hash the same string are the same list. */
  lemma {:induction false} JoinInjective(xs: seq<Bytes>, ys: seq<Bytes>)
    requires AllLockSized(xs) && AllLockSized(ys)
    requires Join(xs) == Join(ys)
    ensures xs == ys
  {
    if xs != [] && ys != [] {
      var x, y := Join(xs), Join(ys);
      assert x[..|xs[0]|] == xs[0] && x[|xs[0]|..] == Join(xs[1..]);
      assert y[..|ys[0]|] == ys[0] && y[|ys[0]|..] == Join(ys[1..]);
      assert xs[0] in xs && ys[0] in ys;
      JoinInjective(xs[1..], ys[1..]);
      assert xs == [xs[0]] + xs[1..] && ys == [ys[0]] + ys[1..];
    }
  }

  // ---------- the packed LockedTransfer ----------

  datatype Packed = Packed(
    cmdid: byte, messageId: nat, paymentId: nat, lock: Lock,
    token: Address, recipient: Address, target: Address, initiator: Address)

  predicate Packable(t: Packed)
  {
    t.messageId <= UINT64_MAX && t.paymentId <= UINT64_MAX
  }

  /** `_pack_locked_transfer_data`. */
  function Pack(t: Packed): (b: Bytes)
    requires Packable(t)
    ensures |b| == 193
  {
    [t.cmdid] + Dword(t.messageId) + Dword(t.paymentId) + Word(t.lock.expiration)
    + AddressBytes(t.token) + AddressBytes(t.recipient) + AddressBytes(t.target)
    + AddressBytes(t.initiator) + Word(t.lock.secrethash) + Word(t.lock.amount)
  }

  function Field(b: Bytes, first: nat, length: nat): (v: nat)
    requires first + length <= |b|
    ensures v < Pow256(length)
  {
    FromBytes(b[first..first + length])
  }

  /** Reads every field back from its fixed offset. */
  function Unpack(b: Bytes): Packed
    requires |b| == 193
  {
    WordBound();
    Packed(b[0], Field(b, 1, 8), Field(b, 9, 8), Lock(Field(b, 161, 32), Field(b, 17, 32), Field(b, 129, 32)),
           Field(b, 49, 20), Field(b, 69, 20), Field(b, 89, 20), Field(b, 109, 20))
  }

  /** Where each field of a packed transfer lies. */
  lemma PackSlices(t: Packed)
    requires Packable(t)
    ensures var b := Pack(t);
      b[0] == t.cmdid && b[1..9] == Dword(t.messageId) && b[9..17] == Dword(t.paymentId)
      && b[17..49] == Word(t.lock.expiration)
      && b[49..69] == AddressBytes(t.token) && b[69..89] == AddressBytes(t.recipient)
      && b[89..109] == AddressBytes(t.target) && b[109..129] == AddressBytes(t.initiator)
      && b[129..161] == Word(t.lock.secrethash) && b[161..193] == Word(t.lock.amount)
  {
    hide Dword, Word, AddressBytes;
  }

  lemma UnpackPack(t: Packed)
    requires Packable(t)
    ensures Unpack(Pack(t)) == t
  {
    WordBound();
    PackSlices(t);
    hide Pack, FromBytes, ToBytes;
    FromToBytes(t.messageId, 8);
    FromToBytes(t.paymentId, 8);
    FromToBytes(t.lock.expiration, WORD);
    FromToBytes(t.token, 20);
    FromToBytes(t.recipient, 20);
    FromToBytes(t.target, 20);
    FromToBytes(t.initiator, 20);
    FromToBytes(t.lock.secrethash, WORD);
    FromToBytes(t.lock.amount, WORD);
  }

  /** So two different transfers never share the bytes that are hashed and signed. */
  lemma PackInjective(s: Packed, t: Packed)
    requires Packable(s) && Packable(t)
    ensures Pack(s) == Pack(t) ==> s == t
  {
    UnpackPack(s);
    UnpackPack(t);
  }
}
