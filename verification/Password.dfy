/** Password hashing: the key derivation loop against PBKDF2 as section 5.2 of RFC 8018 defines it, for any
    pseudo-random function with 32-byte output, and the stored form of a password against its check. */
module Password {
  import opened Wrappers
  import opened Text

  type Byte = bv8
  type Bytes = seq<Byte>
  type Function = (Bytes, Bytes) -> Bytes

  const HASH_LEN := 32
  const MAX_BLOCKS := 0xFFFF_FFFF
  const PREFIX := "yesnas_pbkdf2_sha256"
  const ITERATIONS := 120000
  const KEY_BYTES := 32

  ghost predicate HashSized(prf: Function) {
    forall k, m :: |prf(k, m)| == HASH_LEN
  }

  // ---- RFC 8018, section 5.2 -------------------------------------------------------------------

  /** INT(i): i as four octets, the most significant first. */
  function Int4(i: nat): (r: Bytes)
    ensures |r| == 4
  {
    [] + [LowByte(i / 0x100_0000)] + [LowByte(i / 0x1_0000)] + [LowByte(i / 0x100)] + [LowByte(i)]
  }

  function LowByte(i: nat): Byte {
    (i % 256) as Byte
  }

  function Xor(a: Bytes, b: Bytes): (r: Bytes)
    requires |a| == |b|
    ensures |r| == |a|
  {
    seq(|a|, j requires 0 <= j < |a| => a[j] ^ b[j])
  }

  /** U_k for block i: the k-th iterate of the pseudo-random function on salt and block number. */
  function Iterate(prf: Function, password: Bytes, salt: Bytes, i: nat, k: nat): Bytes
    requires k >= 1
  {
    if k == 1 then prf(password, salt + Int4(i)) else prf(password, Iterate(prf, password, salt, i, k - 1))
  }

  /** F(P, S, c, i): the exclusive or of the first c iterates. */
  ghost function Block(prf: Function, password: Bytes, salt: Bytes, c: nat, i: nat): (r: Bytes)
    requires HashSized(prf) && c >= 1
    ensures |r| == HASH_LEN
  {
    if c == 1 then Iterate(prf, password, salt, i, 1)
    else Xor(Block(prf, password, salt, c - 1, i), Iterate(prf, password, salt, i, c))
  }

  /** T_1 to T_n. */
  ghost function Blocks(prf: Function, password: Bytes, salt: Bytes, c: nat, n: nat): (r: Bytes)
    requires HashSized(prf) && c >= 1
    ensures |r| == n * HASH_LEN
  {
    if n == 0 then [] else Blocks(prf, password, salt, c, n - 1) + Block(prf, password, salt, c, n)
  }

  /** The derived key: all blocks but the last, then the octets of the last one that are still needed. */
  ghost function Derived(prf: Function, password: Bytes, salt: Bytes, c: int, dkLen: nat): Result<Bytes, string>
    requires HashSized(prf)
  {
    if c < 1 then Err("iteration count is not positive")
    else if dkLen == 0 then Ok([])
    else
      var l := (dkLen - 1) / HASH_LEN + 1;
      var r := dkLen - (l - 1) * HASH_LEN;
      if l > MAX_BLOCKS then Err("derived key too long")
      else Ok(Blocks(prf, password, salt, c, l - 1) + Block(prf, password, salt, c, l)[..r])
  }

  // ---- The loop --------------------------------------------------------------------------------

  method XorInto(t: array<Byte>, u: Bytes)
    requires t.Length == |u|
    modifies t
    ensures t[..] == Xor(old(t[..]), u)
  {
    for j := 0 to t.Length
      invariant forall k :: 0 <= k < j ==> t[k] == old(t[k]) ^ u[k]
      invariant forall k :: j <= k < t.Length ==> t[k] == old(t[k])
    {
      t[j] := t[j] ^ u[j];
    }
  }

  /** Below one iteration the loop behaves as for one; block numbers keep their low four octets. */
  method Pbkdf2SHA256(prf: Function, password: Bytes, salt: Bytes, iterations: int, keyLen: nat) returns (key: Bytes)
    requires HashSized(prf)
    ensures |key| == keyLen
    ensures Derived(prf, password, salt, iterations, keyLen).Ok? ==> Ok(key) == Derived(prf, password, salt, iterations, keyLen)
    ensures key <= Blocks(prf, password, salt, if iterations < 1 then 1 else iterations, (keyLen + HASH_LEN - 1) / HASH_LEN)
  {
    var numBlocks := (keyLen + HASH_LEN - 1) / HASH_LEN;
    ghost var c := if iterations < 1 then 1 else iterations;
    var output: Bytes := [];
    for block := 1 to numBlocks + 1
      invariant output == Blocks(prf, password, salt, c, block - 1)
    {
      var t := DeriveBlock(prf, password, salt, iterations, block);
      output := output + t;
    }
    key := output[..keyLen];
    LastBlock(prf, password, salt, c, keyLen);
  }

  method DeriveBlock(prf: Function, password: Bytes, salt: Bytes, iterations: int, block: nat) returns (r: Bytes)
    requires HashSized(prf)
    ensures r == Block(prf, password, salt, if iterations < 1 then 1 else iterations, block)
  {
    var u := prf(password, salt + Int4(block));
    var t := new Byte[HASH_LEN](i requires 0 <= i < HASH_LEN => u[i]);
    var i := 1;
    assert t[..] == u;
    while i < iterations
      invariant 1 <= i && (i <= iterations || i == 1)
      invariant u == Iterate(prf, password, salt, block, i)
      invariant t[..] == Block(prf, password, salt, i, block)
    {
      u := prf(password, u);
      XorInto(t, u);
      i := i + 1;
    }
    r := t[..];
  }

  /** Cutting the concatenated blocks at the key length leaves all blocks but the last, and its start. */
  lemma LastBlock(prf: Function, password: Bytes, salt: Bytes, c: nat, keyLen: nat)
    requires HashSized(prf) && c >= 1
    ensures
      var l := (keyLen + HASH_LEN - 1) / HASH_LEN;
      keyLen <= l * HASH_LEN
      && (keyLen > 0 ==>
        l == (keyLen - 1) / HASH_LEN + 1
        && 0 < keyLen - (l - 1) * HASH_LEN <= HASH_LEN
        && Blocks(prf, password, salt, c, l)[..keyLen]
           == Blocks(prf, password, salt, c, l - 1) + Block(prf, password, salt, c, l)[..keyLen - (l - 1) * HASH_LEN])
  {
    hide Block;
    if keyLen > 0 {
      var l := (keyLen + HASH_LEN - 1) / HASH_LEN;
      var init, last := Blocks(prf, password, salt, c, l - 1), Block(prf, password, salt, c, l);
      assert Blocks(prf, password, salt, c, l) == init + last;
    }
  }

  // ---- Properties ------------------------------------------------------------------------------

  function Octet(b: Byte): nat {
    b as nat
  }

  lemma OctetOf(i: nat)
    ensures Octet(LowByte(i)) == i % 256
  {
    ByteOf(i % 256);
  }

  lemma ByteOf(x: nat)
    requires x < 256
    ensures Octet(x as Byte) == x
  {
  }

  function Value(octets: Bytes): nat {
    if octets == [] then 0 else 256 * Value(octets[..|octets| - 1]) + Octet(octets[|octets| - 1])
  }

  lemma ValueOne(octets: Bytes, b: Byte)
    ensures Value(octets + [b]) == 256 * Value(octets) + Octet(b)
  {
    hide Octet;
    assert (octets + [b])[..|octets|] == octets;
  }

  /** The four octets are the block number, for every block a derived key may have. */
  lemma Int4Value(i: nat)
    requires i <= MAX_BLOCKS
    ensures Value(Int4(i)) == i
  {
    hide Octet, LowByte, Value;
    OctetOf(i / 0x100_0000); OctetOf(i / 0x1_0000); OctetOf(i / 0x100); OctetOf(i);
    ValueOf4(LowByte(i / 0x100_0000), LowByte(i / 0x1_0000), LowByte(i / 0x100), LowByte(i));
    FourDigits(i);
  }

  lemma FourDigits(i: nat)
    requires i <= MAX_BLOCKS
    ensures i == 0x100_0000 * (i / 0x100_0000 % 256) + 0x1_0000 * (i / 0x1_0000 % 256) + 0x100 * (i / 0x100 % 256) + i % 256
  {
    assert i / 0x1_0000 == i / 0x100 / 256 && i / 0x100_0000 == i / 0x1_0000 / 256;
  }

  lemma ValueOf4(b0: Byte, b1: Byte, b2: Byte, b3: Byte)
    ensures Value([] + [b0] + [b1] + [b2] + [b3]) == 0x100_0000 * Octet(b0) + 0x1_0000 * Octet(b1) + 0x100 * Octet(b2) + Octet(b3)
  {
    hide Octet;
    ValueOne([], b0);
    ValueOne([] + [b0], b1);
    ValueOne([] + [b0] + [b1], b2);
    ValueOne([] + [b0] + [b1] + [b2], b3);
  }

  lemma {:induction false} BlocksPrefix(prf: Function, password: Bytes, salt: Bytes, c: nat, m: nat, n: nat)
    requires HashSized(prf) && c >= 1 && m <= n
    ensures Blocks(prf, password, salt, c, m) <= Blocks(prf, password, salt, c, n)
  {
    hide Block;
    if m < n {
      BlocksPrefix(prf, password, salt, c, m, n - 1);
    }
  }

  /** A shorter key is the start of a longer one. */
  lemma ShorterIsPrefix(prf: Function, password: Bytes, salt: Bytes, c: int, short: nat, long: nat)
    requires HashSized(prf) && short <= long && Derived(prf, password, salt, c, long).Ok?
    ensures Derived(prf, password, salt, c, short).Ok?
    ensures Derived(prf, password, salt, c, short).value <= Derived(prf, password, salt, c, long).value
  {
    hide Block, Blocks;
    LastBlock(prf, password, salt, c, short);
    LastBlock(prf, password, salt, c, long);
    BlocksPrefix(prf, password, salt, c, (short + HASH_LEN - 1) / HASH_LEN, (long + HASH_LEN - 1) / HASH_LEN);
  }
}
