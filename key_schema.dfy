/** The key layout of a go-ethereum chain database as the LevelDB client reads and writes it.
    Block numbers are 8-byte big-endian, zero-padded on the left; keys are plain concatenations
    of a one- or two-byte ASCII prefix, the number and/or a 32-byte hash, with no delimiters. */
module KeySchema {
  import opened Wrappers

  type Byte = b: int | 0 <= b < 256
  type Bytes = seq<Byte>

  /** A keccak-256 digest. */
  type Hash = h: Bytes | |h| == 32 witness seq(32, _ => 0)

  /** 2^64: the numbers that fit the 8-byte field are those below it. */
  const NumberLimit: nat := 0x1_0000_0000_0000_0000

  const HeaderPrefix: Bytes := [0x68]           // "h"
  const BodyPrefix: Bytes := [0x62]             // "b"
  const NumSuffix: Bytes := [0x6E]              // "n"
  const BlockHashPrefix: Bytes := [0x48]        // "H"
  const BlockReceiptsPrefix: Bytes := [0x72]    // "r"
  const HeadHeaderKey: Bytes := [0x4C, 0x61, 0x73, 0x74, 0x42, 0x6C, 0x6F, 0x63, 0x6B]   // "LastBlock"
  const AddressPrefix: Bytes := [0x41, 0x4D]    // "AM"
  const AddressMappingHeadKey: Bytes :=          // "accountMapping"
    [0x61, 0x63, 0x63, 0x6F, 0x75, 0x6E, 0x74, 0x4D, 0x61, 0x70, 0x70, 0x69, 0x6E, 0x67]

  function Pow256(k: nat): (r: nat)
    ensures r > 0
  {
    if k == 0 then 1 else 256 * Pow256(k - 1)
  }

  function Zeros(k: nat): (r: Bytes)
  {
    seq(k, _ => 0)
  }

  /** utils.int_to_big_endian: the shortest big-endian form, so 0 becomes the empty string. */
  function IntToBigEndian(n: nat): (r: Bytes)
    ensures r == [] <==> n == 0
    ensures r != [] ==> r[0] != 0
  {
    if n == 0 then [] else IntToBigEndian(n / 256) + [n % 256]
  }

  /** The value of a big-endian byte string. */
  function BigEndianToInt(s: Bytes): (r: nat)
    ensures r < Pow256(|s|)
  {
    if s == [] then 0 else BigEndianToInt(s[..|s| - 1]) * 256 + s[|s| - 1]
  }

  /** utils.zpad: left-pad with zero bytes up to `width`; never truncates. */
  function ZeroPad(s: Bytes, width: nat): (r: Bytes)
  {
    if |s| < width then Zeros(width - |s|) + s else s
  }

  /** _format_block_number: never shorter than 8 bytes, and exactly 8 for a number below 2^64. */
  function FormatBlockNumber(n: nat): (r: Bytes)
    ensures |r| >= 8
    ensures n < NumberLimit ==> |r| == 8
  {
    IntToBigEndianLength(n, 8);
    assert Pow256(8) == NumberLimit;
    ZeroPad(IntToBigEndian(n), 8)
  }

  lemma {:induction false} IntToBigEndianRoundTrip(n: nat)
    ensures BigEndianToInt(IntToBigEndian(n)) == n
  {
    if n != 0 {
      var s := IntToBigEndian(n);
      assert s[..|s| - 1] == IntToBigEndian(n / 256);
      IntToBigEndianRoundTrip(n / 256);
    }
  }

  lemma {:induction false} IntToBigEndianLength(n: nat, k: nat)
    ensures |IntToBigEndian(n)| <= k <==> n < Pow256(k)
  {
    if n != 0 && k != 0 {
      IntToBigEndianLength(n / 256, k - 1);
    }
  }

  lemma {:induction false} ZerosHaveNoValue(k: nat)
    ensures BigEndianToInt(Zeros(k)) == 0
  {
    if k != 0 {
      assert Zeros(k)[..k - 1] == Zeros(k - 1);
      ZerosHaveNoValue(k - 1);
    }
  }

  /** Leading zero bytes do not change the value. */
  lemma {:induction false} LeadingZerosIgnored(k: nat, s: Bytes)
    ensures BigEndianToInt(Zeros(k) + s) == BigEndianToInt(s)
  {
    if s == [] {
      assert Zeros(k) + s == Zeros(k);
      ZerosHaveNoValue(k);
    } else {
      var t := Zeros(k) + s;
      assert t[..|t| - 1] == Zeros(k) + s[..|s| - 1];
      LeadingZerosIgnored(k, s[..|s| - 1]);
    }
  }

  /** Re-encoding the value of any byte string at its own width gives that string back. */
  lemma {:induction false} ZeroPadCanonical(s: Bytes)
    ensures ZeroPad(IntToBigEndian(BigEndianToInt(s)), |s|) == s
  {
    if s != [] {
      var init, b := s[..|s| - 1], s[|s| - 1];
      assert s == init + [b];
      ZeroPadCanonical(init);
      var v := BigEndianToInt(s);
      var m := BigEndianToInt(init);
      var e := IntToBigEndian(m);
      assert v == m * 256 + b;
      assert |e| <= |init|;
      if v == 0 {
        assert m == 0 && b == 0;
        assert init == Zeros(|init|);
        assert s == Zeros(|s|);
      } else {
        assert v / 256 == m && v % 256 == b;
        assert IntToBigEndian(v) == e + [b];
        assert init == Zeros(|init| - |e|) + e;
        assert ZeroPad(e + [b], |s|) == Zeros(|init| - |e|) + e + [b];
      }
    }
  }

  /** For every number, its formatted form decodes back to it. */
  lemma FormatBlockNumberRoundTrip(n: nat)
    ensures BigEndianToInt(FormatBlockNumber(n)) == n
  {
    var e := IntToBigEndian(n);
    IntToBigEndianRoundTrip(n);
    if |e| < 8 {
      LeadingZerosIgnored(8 - |e|, e);
    }
  }

  /** The formatted number is exactly 8 bytes long precisely for the numbers below 2^64. */
  lemma FormatBlockNumberWidth(n: nat)
    ensures |FormatBlockNumber(n)| == 8 <==> n < NumberLimit
  {
    IntToBigEndianLength(n, 8);
    assert Pow256(8) == NumberLimit;
  }

  /** Every 8-byte string is the formatted form of exactly one number below 2^64. */
  lemma FormatBlockNumberOnto(s: Bytes)
    requires |s| == 8
    ensures BigEndianToInt(s) < NumberLimit
    ensures FormatBlockNumber(BigEndianToInt(s)) == s
  {
    assert Pow256(8) == NumberLimit;
    ZeroPadCanonical(s);
  }

  /** Below 2^64, distinct numbers have distinct formatted forms. */
  lemma FormatBlockNumberInjective(m: nat, n: nat)
    requires FormatBlockNumber(m) == FormatBlockNumber(n)
    ensures m == n
  {
    FormatBlockNumberRoundTrip(m);
    FormatBlockNumberRoundTrip(n);
  }

  /** The number held in an 8-byte field of a key. */
  function NumberField(b: Bytes): (n: nat)
    requires |b| == 8
    ensures n < NumberLimit
  {
    assert Pow256(8) == NumberLimit;
    BigEndianToInt(b)
  }

  // Key builders, one per key family of the schema.

  /** "h" + num + "n" -> canonical hash of block num. For a number below 2^64 the key is 10 bytes
      long and the schema reads it back as the canonical-hash key of that number. */
  function HashKey(number: nat): (r: Bytes)
    ensures |r| == |FormatBlockNumber(number)| + 2
    ensures number < NumberLimit ==> |r| == 10 && Parse(r) == Some(NumToHash(number))
  {
    var f := FormatBlockNumber(number);
    FormatBlockNumberRoundTrip(number);
    var r := HeaderPrefix + f + NumSuffix;
    assert |r| == |f| + 2;
    assert |f| == 8 ==> r[..1] == HeaderPrefix && r[1..9] == f && r[9..] == NumSuffix;
    r
  }

  /** prefix + num + hash: the header ("h"), body ("b") and receipts ("r") keys. The prefix, the
      number and the hash can each be cut back out of the key. */
  function BlockKey(prefix: Bytes, num: Bytes, hash: Bytes): (r: Bytes)
    ensures |r| == |prefix| + |num| + |hash|
    ensures r[..|prefix|] == prefix && r[|prefix|..|prefix| + |num|] == num && r[|prefix| + |num|..] == hash
  {
    prefix + num + hash
  }

  /** "h" + num + hash -> header. With an 8-byte number and a 32-byte hash the schema reads the
      key back as the header key of that block. */
  function HeaderKey(num: Bytes, hash: Bytes): (r: Bytes)
    ensures |num| == 8 && |hash| == 32 ==> Parse(r) == Some(HeaderAt(NumberField(num), hash))
  {
    BlockKey(HeaderPrefix, num, hash)
  }

  /** "b" + num + hash -> block body, read back as the body key of that block. */
  function BodyKey(num: Bytes, hash: Bytes): (r: Bytes)
    ensures |num| == 8 && |hash| == 32 ==> Parse(r) == Some(BodyAt(NumberField(num), hash))
  {
    BlockKey(BodyPrefix, num, hash)
  }

  /** "r" + num + hash -> block receipts, read back as the receipts key of that block. */
  function ReceiptsKey(num: Bytes, hash: Bytes): (r: Bytes)
    ensures |num| == 8 && |hash| == 32 ==> Parse(r) == Some(ReceiptsAt(NumberField(num), hash))
  {
    BlockKey(BlockReceiptsPrefix, num, hash)
  }

  /** "H" + hash -> 8-byte number of that block; a 32-byte hash gives a number key of that hash. */
  function NumberKey(hash: Bytes): (r: Bytes)
    ensures |r| == |hash| + 1 && r[0] == 0x48
    ensures |hash| == 32 ==> Parse(r) == Some(HashToNum(hash))
  {
    var r := BlockHashPrefix + hash;
    assert r[..1] == BlockHashPrefix && r[1..] == hash;
    r
  }

  /** "AM" + sha3(address) -> address: the secondary account index; a 32-byte hash gives an
      index key of that hash. */
  function AddressKey(hash: Bytes): (r: Bytes)
    ensures |r| == |hash| + 2 && r[..2] == AddressPrefix
    ensures |hash| == 32 ==> Parse(r) == Some(AddressOf(hash))
  {
    var r := AddressPrefix + hash;
    assert r[2..] == hash;
    r
  }

  /** A key of the schema, with its fields decoded. */
  datatype Key =
    | NumToHash(number: nat)
    | HeaderAt(number: nat, hash: Bytes)
    | BodyAt(number: nat, hash: Bytes)
    | ReceiptsAt(number: nat, hash: Bytes)
    | HashToNum(hash: Bytes)
    | AddressOf(hash: Bytes)
    | LastBlock
    | AccountMapping

  /** The key's number fits 8 bytes and its hash is 32 bytes long. */
  predicate WellFormed(k: Key)
  {
    match k
    case NumToHash(n) => n < NumberLimit
    case HeaderAt(n, h) => n < NumberLimit && |h| == 32
    case BodyAt(n, h) => n < NumberLimit && |h| == 32
    case ReceiptsAt(n, h) => n < NumberLimit && |h| == 32
    case HashToNum(h) => |h| == 32
    case AddressOf(h) => |h| == 32
    case LastBlock => true
    case AccountMapping => true
  }

  function Encode(k: Key): Bytes
  {
    match k
    case NumToHash(n) => HashKey(n)
    case HeaderAt(n, h) => HeaderKey(FormatBlockNumber(n), h)
    case BodyAt(n, h) => BodyKey(FormatBlockNumber(n), h)
    case ReceiptsAt(n, h) => ReceiptsKey(FormatBlockNumber(n), h)
    case HashToNum(h) => NumberKey(h)
    case AddressOf(h) => AddressKey(h)
    case LastBlock => HeadHeaderKey
    case AccountMapping => AddressMappingHeadKey
  }

  /** Reads a raw key back into its family and fields; None is a schema violation. */
  function Parse(b: Bytes): (r: Option<Key>)
    ensures r.Some? ==> WellFormed(r.value)
  {
    if b == HeadHeaderKey then Some(LastBlock)
    else if b == AddressMappingHeadKey then Some(AccountMapping)
    else if |b| == 10 && b[..1] == HeaderPrefix && b[9..] == NumSuffix then
      Some(NumToHash(NumberField(b[1..9])))
    else if |b| == 41 && b[..1] == HeaderPrefix then Some(HeaderAt(NumberField(b[1..9]), b[9..]))
    else if |b| == 41 && b[..1] == BodyPrefix then Some(BodyAt(NumberField(b[1..9]), b[9..]))
    else if |b| == 41 && b[..1] == BlockReceiptsPrefix then Some(ReceiptsAt(NumberField(b[1..9]), b[9..]))
    else if |b| == 33 && b[..1] == BlockHashPrefix then Some(HashToNum(b[1..]))
    else if |b| == 34 && b[..2] == AddressPrefix then Some(AddressOf(b[2..]))
    else None
  }

  /** Every well-formed key is read back as itself: the key families never overlap. */
  lemma ParseEncode(k: Key)
    requires WellFormed(k)
    ensures Parse(Encode(k)) == Some(k)
  {
    match k
    case NumToHash(n) =>
      var b, f := Encode(k), FormatBlockNumber(n);
      FormatBlockNumberWidth(n);
      FormatBlockNumberRoundTrip(n);
      assert b[1..9] == f && b[..1] == HeaderPrefix && b[9..] == NumSuffix;
    case HeaderAt(n, h) =>
      var b, f := Encode(k), FormatBlockNumber(n);
      FormatBlockNumberWidth(n);
      FormatBlockNumberRoundTrip(n);
      assert b[1..9] == f && b[9..] == h && b[..1] == HeaderPrefix;
    case BodyAt(n, h) =>
      var b, f := Encode(k), FormatBlockNumber(n);
      FormatBlockNumberWidth(n);
      FormatBlockNumberRoundTrip(n);
      assert b[1..9] == f && b[9..] == h && b[..1] == BodyPrefix;
    case ReceiptsAt(n, h) =>
      var b, f := Encode(k), FormatBlockNumber(n);
      FormatBlockNumberWidth(n);
      FormatBlockNumberRoundTrip(n);
      assert b[1..9] == f && b[9..] == h && b[..1] == BlockReceiptsPrefix;
    case HashToNum(h) =>
      var b := Encode(k);
      assert b[..1] == BlockHashPrefix && b[1..] == h;
    case AddressOf(h) =>
      var b := Encode(k);
      assert b[..2] == AddressPrefix && b[2..] == h;
    case LastBlock =>
    case AccountMapping =>
  }

  /** Every key the schema accepts is the encoding of what it was read as. */
  lemma EncodeParse(b: Bytes)
    requires Parse(b).Some?
    ensures Encode(Parse(b).value) == b
  {
    if b == HeadHeaderKey || b == AddressMappingHeadKey {
    } else if |b| == 10 || |b| == 41 {
      FormatBlockNumberOnto(b[1..9]);
      assert b == b[..1] + b[1..9] + b[9..];
    } else if |b| == 33 {
      assert b == b[..1] + b[1..];
    } else {
      assert b == b[..2] + b[2..];
    }
  }

  /** The canonical-hash key of a block (10 bytes) is never the header key of a block (41 bytes). */
  lemma HashKeyIsNotHeaderKey(n: nat, m: nat, hash: Bytes)
    requires n < NumberLimit && m < NumberLimit && |hash| == 32
    ensures |HashKey(n)| == 10 && |HeaderKey(FormatBlockNumber(m), hash)| == 41
    ensures HashKey(n) != HeaderKey(FormatBlockNumber(m), hash)
  {
    FormatBlockNumberWidth(n);
    FormatBlockNumberWidth(m);
  }
}
