/** Media encryption: PKCS#7 padding (section 6.3 of RFC 5652) and ECB mode (section 6.1 of
    NIST SP 800-38A) over an abstract family of invertible 16-byte block permutations. */
module MediaCipher {
  import opened Text

  newtype byte = b: int | 0 <= b < 256

  type bytes = seq<byte>

  const BLOCK := 16

  /** One permutation of 16-byte blocks and its inverse for every key. */
  datatype BlockCipher = BlockCipher(enc: (bytes, bytes) -> bytes, dec: (bytes, bytes) -> bytes) {
    ghost predicate Invertible() {
      forall k: bytes, x: bytes {:trigger enc(k, x)} {:trigger dec(k, x)} | |x| == BLOCK ::
        |enc(k, x)| == BLOCK && dec(k, enc(k, x)) == x && |dec(k, x)| == BLOCK && enc(k, dec(k, x)) == x
    }
  }

  /** The key lengths the cipher accepts. */
  predicate KeyOk(key: bytes) {
    |key| in {16, 24, 32}
  }

  // ---------------------------------------------------------------- padding

  function Repeat(b: byte, n: nat): (r: bytes) {
    seq(n, _ => b)
  }

  function PadLength(n: nat): (p: nat)
    ensures 1 <= p <= BLOCK && (n + p) % BLOCK == 0
  {
    BLOCK - n % BLOCK
  }

  function Pad(data: bytes): (r: bytes)
    ensures |r| % BLOCK == 0 && |data| < |r| <= |data| + BLOCK
  {
    var p := PadLength(|data|);
    data + Repeat(p as byte, p)
  }

  /** Size announced to the gateway before the upload. */
  function PaddedSize(plain: nat): (r: nat) {
    plain + (BLOCK - plain % BLOCK)
  }

  predicate WellPadded(data: bytes) {
    data != [] &&
    var p := data[|data| - 1] as int;
    1 <= p <= BLOCK && p <= |data| && forall i | |data| - p <= i < |data| :: data[i] as int == p
  }

  function Unpad(data: bytes): (r: Result<bytes>) {
    if WellPadded(data) then Ok(data[..|data| - data[|data| - 1] as int]) else Err
  }

  method Pkcs7Unpad(data: array<byte>) returns (r: Result<bytes>)
    ensures r == Unpad(data[..])
  {
    if data.Length == 0 { return Err; }
    var padding := data[data.Length - 1] as int;
    if padding == 0 || padding > BLOCK || padding > data.Length { return Err; }
    var i := data.Length - padding;
    while i < data.Length
      invariant data.Length - padding <= i <= data.Length
      invariant forall j | data.Length - padding <= j < i :: data[j] as int == padding
    {
      if data[i] as int != padding { return Err; }
      i := i + 1;
    }
    r := Ok(data[..data.Length - padding]);
  }

  /** On block-aligned data unpadding succeeds with `y` exactly when the data is the padding of `y`. */
  lemma UnpadInvertsPad(data: bytes, y: bytes)
    requires |data| % BLOCK == 0
    ensures Unpad(data) == Ok(y) <==> data == Pad(y)
  {
    if data == Pad(y) {
      var p := PadLength(|y|);
      assert forall i | |y| <= i < |data| :: data[i] == p as byte;
      assert data[..|y|] == y;
    }
    if Unpad(data) == Ok(y) {
      var p := data[|data| - 1] as int;
      AlignedPadLength(|y|, p);
      assert data == y + Repeat(p as byte, p);
    }
  }

  lemma AlignedPadLength(n: nat, p: nat)
    requires 1 <= p <= BLOCK && (n + p) % BLOCK == 0
    ensures PadLength(n) == p
  {
  }

  // -------------------------------------------------------------- ECB mode

  /** Each block on its own. */
  function Ecb(f: bytes -> bytes, data: bytes): (r: bytes)
    requires |data| % BLOCK == 0
  {
    if data == [] then [] else f(data[..BLOCK]) + Ecb(f, data[BLOCK..])
  }

  ghost predicate KeepsBlocks(f: bytes -> bytes) {
    forall x: bytes {:trigger f(x)} | |x| == BLOCK :: |f(x)| == BLOCK
  }

  lemma {:induction false} EcbLength(f: bytes -> bytes, data: bytes)
    requires KeepsBlocks(f) && |data| % BLOCK == 0
    ensures |Ecb(f, data)| == |data|
  {
    if data != [] { EcbLength(f, data[BLOCK..]); }
  }

  lemma {:induction false} EcbAppend(f: bytes -> bytes, a: bytes, b: bytes)
    requires |a| % BLOCK == 0 && |b| == BLOCK
    ensures Ecb(f, a + b) == Ecb(f, a) + f(b)
  {
    if a == [] {
      assert a + b == b && b[..BLOCK] == b && b[BLOCK..] == [];
    } else {
      assert (a + b)[..BLOCK] == a[..BLOCK] && (a + b)[BLOCK..] == a[BLOCK..] + b;
      EcbAppend(f, a[BLOCK..], b);
    }
  }

  /** Inverse blockwise gives inverse on the whole. */
  lemma {:induction false} EcbInverse(f: bytes -> bytes, g: bytes -> bytes, data: bytes)
    requires KeepsBlocks(f) && |data| % BLOCK == 0
    requires forall x: bytes {:trigger f(x)} | |x| == BLOCK :: g(f(x)) == x
    ensures |Ecb(f, data)| == |data| && Ecb(g, Ecb(f, data)) == data
  {
    EcbLength(f, data);
    if data != [] {
      EcbInverse(f, g, data[BLOCK..]);
      var head := f(data[..BLOCK]);
      assert |head| == BLOCK && g(head) == data[..BLOCK];
      assert Ecb(f, data)[..BLOCK] == head && Ecb(f, data)[BLOCK..] == Ecb(f, data[BLOCK..]);
      assert data == data[..BLOCK] + data[BLOCK..];
    }
  }

  /** The block loop both directions share: the output buffer is filled one block at a time. */
  method RunBlocks(f: bytes -> bytes, input: bytes) returns (out: array<byte>)
    requires KeepsBlocks(f) && |input| % BLOCK == 0
    ensures fresh(out) && out[..] == Ecb(f, input)
  {
    out := new byte[|input|];
    var i := 0;
    while i < |input|
      invariant 0 <= i <= |input| && i % BLOCK == 0
      invariant out[..i] == Ecb(f, input[..i])
    {
      var x := f(input[i..i + BLOCK]);
      CopyBlock(out, i, x);
      EcbAppend(f, input[..i], input[i..i + BLOCK]);
      assert input[..i + BLOCK] == input[..i] + input[i..i + BLOCK];
      i := i + BLOCK;
    }
    EcbLength(f, input);
    assert input[..i] == input && out[..i] == out[..];
  }

  method CopyBlock(out: array<byte>, at: nat, x: bytes)
    requires at + |x| <= out.Length
    modifies out
    ensures out[..at + |x|] == old(out[..at]) + x
    ensures out[at + |x|..] == old(out[at + |x|..])
  {
    for j := 0 to |x|
      invariant out[..at] == old(out[..at])
      invariant forall m | 0 <= m < j :: out[at + m] == x[m]
      invariant forall m | at + |x| <= m < out.Length :: out[m] == old(out[m])
    {
      out[at + j] := x[j];
    }
  }

  // ---------------------------------------------------- encrypt and decrypt

  function Encrypt(c: BlockCipher, key: bytes, plain: bytes): (r: Result<bytes>) {
    if !KeyOk(key) then Err else Ok(Ecb(x => c.enc(key, x), Pad(plain)))
  }

  function Decrypt(c: BlockCipher, key: bytes, data: bytes): (r: Result<bytes>) {
    if !KeyOk(key) || data == [] || |data| % BLOCK != 0 then Err
    else Unpad(Ecb(x => c.dec(key, x), data))
  }

  method EncryptAesEcb(c: BlockCipher, key: bytes, plain: bytes) returns (r: Result<bytes>)
    requires c.Invertible()
    ensures r == Encrypt(c, key, plain)
  {
    if !KeyOk(key) { return Err; }
    var out := RunBlocks(x => c.enc(key, x), Pad(plain));
    r := Ok(out[..]);
  }

  method DecryptAesEcb(c: BlockCipher, key: bytes, data: bytes) returns (r: Result<bytes>)
    requires c.Invertible()
    ensures r == Decrypt(c, key, data)
  {
    if !KeyOk(key) { return Err; }
    if |data| == 0 || |data| % BLOCK != 0 { return Err; }
    var plain := RunBlocks(x => c.dec(key, x), data);
    r := Pkcs7Unpad(plain);
  }

  /** For every byte string and every key of an accepted length, encryption succeeds, its length is the
      size announced to the gateway, and decryption gives the plain text back. */
  lemma DecryptInvertsEncrypt(c: BlockCipher, key: bytes, plain: bytes)
    requires c.Invertible() && KeyOk(key)
    ensures var e := Encrypt(c, key, plain);
      e.Ok? && |e.value| == PaddedSize(|plain|) && Decrypt(c, key, e.value) == Ok(plain)
  {
    var f, g := x => c.enc(key, x), x => c.dec(key, x);
    EcbInverse(f, g, Pad(plain));
    UnpadInvertsPad(Pad(plain), plain);
  }

  /** The padding: 1 to 16 bytes, each holding their number, up to a whole number of blocks. */
  lemma PaddingIs(data: bytes) returns (p: nat)
    ensures 1 <= p <= 16 && (|data| + p) % 16 == 0 && |Pad(data)| == |data| + p == PaddedSize(|data|)
    ensures Pad(data)[..|data|] == data && forall i | |data| <= i < |data| + p :: Pad(data)[i] as int == p
  {
    p := PadLength(|data|);
  }

  lemma {:induction false} BlockOfEcb(f: bytes -> bytes, data: bytes, i: nat)
    requires KeepsBlocks(f) && |data| % BLOCK == 0 && BLOCK * i < |data|
    ensures |Ecb(f, data)| == |data|
    ensures Ecb(f, data)[BLOCK * i..BLOCK * i + BLOCK] == f(data[BLOCK * i..BLOCK * i + BLOCK])
  {
    EcbLength(f, data);
    if i > 0 {
      BlockOfEcb(f, data[BLOCK..], i - 1);
      assert Ecb(f, data)[BLOCK..] == Ecb(f, data[BLOCK..]);
      var at := BLOCK * (i - 1);
      assert data[BLOCK..][at..at + BLOCK] == data[BLOCK * i..BLOCK * i + BLOCK];
      assert Ecb(f, data)[BLOCK..][at..at + BLOCK] == Ecb(f, data)[BLOCK * i..BLOCK * i + BLOCK];
    }
  }

  /** Encryption succeeds exactly with a key of 16, 24 or 32 bytes, and each block of its result is the cipher's
      image of that block of the padded text. */
  lemma EncryptedBlocks(c: BlockCipher, key: bytes, plain: bytes, i: nat)
    requires c.Invertible()
    ensures Encrypt(c, key, plain).Ok? <==> |key| == 16 || |key| == 24 || |key| == 32
    ensures Encrypt(c, key, plain).Ok? && 16 * i < |Pad(plain)| ==>
      |Encrypt(c, key, plain).value| == |Pad(plain)|
      && Encrypt(c, key, plain).value[16 * i..16 * i + 16] == c.enc(key, Pad(plain)[16 * i..16 * i + 16])
  {
    if 16 * i < |Pad(plain)| { BlockOfEcb(x => c.enc(key, x), Pad(plain), i); }
  }

  /** Decryption accepts nothing else: whatever bytes it decrypts are the encryption of what it returns. */
  lemma DecryptOnlyEncryptions(c: BlockCipher, key: bytes, data: bytes, y: bytes)
    requires c.Invertible()
    ensures Decrypt(c, key, data) == Ok(y) <==> Encrypt(c, key, y) == Ok(data)
  {
    var f, g := x => c.enc(key, x), x => c.dec(key, x);
    if Decrypt(c, key, data) == Ok(y) {
      var padded := Ecb(g, data);
      EcbInverse(g, f, data);
      UnpadInvertsPad(padded, y);
    }
    if Encrypt(c, key, y) == Ok(data) {
      DecryptInvertsEncrypt(c, key, y);
    }
  }
}
