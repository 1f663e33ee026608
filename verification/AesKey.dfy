/** The encodings an AES key travels in: hexadecimal (section 8 of RFC 4648), base64 (section 4 of
    RFC 4648) of the hexadecimal form, or the raw bytes. */
module AesKey {
  import opened Text
  import opened MediaCipher

  // ------------------------------------------------------------ hexadecimal

  function HexDigit(n: nat): (b: byte)
    requires n < 16
  {
    (if n < 10 then 48 + n else 87 + n) as byte
  }

  /** Upper case is read too. */
  function HexValue(b: byte): (r: Option<nat>)
    ensures r.Some? ==> r.value < 16
  {
    if 48 <= b <= 57 then Some(b as nat - 48)
    else if 97 <= b <= 102 then Some(b as nat - 87)
    else if 65 <= b <= 70 then Some(b as nat - 55)
    else None
  }

  function HexEncode(data: bytes): (r: bytes)
    ensures |r| == 2 * |data| && Visible(r)
  {
    if data == [] then []
    else [HexDigit(data[0] as nat / 16), HexDigit(data[0] as nat % 16)] + HexEncode(data[1..])
  }

  function HexDecode(s: bytes): (r: Result<bytes>)
    ensures r.Ok? ==> |s| == 2 * |r.value|
  {
    if s == [] then Ok([])
    else if |s| == 1 then Err
    else
      match (HexValue(s[0]), HexValue(s[1]), HexDecode(s[2..]))
      case (Some(hi), Some(lo), Ok(rest)) => Ok([(16 * hi + lo) as byte] + rest)
      case _ => Err
  }

  lemma {:induction false} HexRoundTrip(data: bytes)
    ensures HexDecode(HexEncode(data)) == Ok(data)
  {
    if data != [] {
      var s := HexEncode(data);
      HexRoundTrip(data[1..]);
      assert s[2..] == HexEncode(data[1..]);
      assert data == [data[0]] + data[1..];
    }
  }

  // ----------------------------------------------------------------- base64

  const PAD: byte := 61

  function B64Char(i: nat): (b: byte)
    requires i < 64
    ensures 33 <= b <= 126 && b != PAD
  {
    (if i < 26 then 65 + i else if i < 52 then 71 + i else if i < 62 then i - 4 else if i == 62 then 43 else 47) as byte
  }

  function B64Value(b: byte): (r: Option<nat>)
    ensures r.Some? ==> r.value < 64
    ensures forall i | 0 <= i < 64 :: B64Char(i) == b ==> r == Some(i)
  {
    if 65 <= b <= 90 then Some(b as nat - 65)
    else if 97 <= b <= 122 then Some(b as nat - 71)
    else if 48 <= b <= 57 then Some(b as nat + 4)
    else if b == 43 then Some(62)
    else if b == 47 then Some(63)
    else None
  }

  /** The four six-bit values of three bytes, and back. */
  function Sextets(x: nat, y: nat, z: nat): (r: (nat, nat, nat, nat))
    requires x < 256 && y < 256 && z < 256
    ensures r.0 < 64 && r.1 < 64 && r.2 < 64 && r.3 < 64
  {
    (x / 4, x % 4 * 16 + y / 16, y % 16 * 4 + z / 64, z % 64)
  }

  function Octets(a: nat, b: nat, c: nat, d: nat): (r: (nat, nat, nat))
    requires a < 64 && b < 64 && c < 64 && d < 64
    ensures r.0 < 256 && r.1 < 256 && r.2 < 256
  {
    (a * 4 + b / 16, b % 16 * 16 + c / 4, c % 4 * 64 + d)
  }

  lemma OctetsOfSextets(x: nat, y: nat, z: nat)
    requires x < 256 && y < 256 && z < 256
    ensures var r := Sextets(x, y, z); Octets(r.0, r.1, r.2, r.3) == (x, y, z)
  {
    var r := Sextets(x, y, z);
    assert r.1 / 16 == x % 4 && r.1 % 16 == y / 16;
    assert r.2 / 4 == y % 16 && r.2 % 4 == z / 64;
  }

  function B64Encode(data: bytes): (r: bytes)
    ensures |r| == (|data| + 2) / 3 * 4 && Visible(r)
  {
    hide Sextets, B64Char;
    if data == [] then []
    else if |data| == 1 then
      var (a, b, _, _) := Sextets(data[0] as nat, 0, 0);
      [B64Char(a), B64Char(b), PAD, PAD]
    else if |data| == 2 then
      var (a, b, c, _) := Sextets(data[0] as nat, data[1] as nat, 0);
      [B64Char(a), B64Char(b), B64Char(c), PAD]
    else
      var (a, b, c, d) := Sextets(data[0] as nat, data[1] as nat, data[2] as nat);
      [B64Char(a), B64Char(b), B64Char(c), B64Char(d)] + B64Encode(data[3..])
  }

  /** Groups of four characters; padding only in the last group; bits under the padding are dropped. */
  function DecodeGroups(t: bytes): (r: Result<bytes>)
    ensures r.Ok? ==> 4 * |r.value| <= 3 * |t|
  {
    if t == [] then Ok([])
    else if |t| < 4 then Err
    else if t[3] == PAD then
      if |t| > 4 then Err
      else if t[2] == PAD then
        match (B64Value(t[0]), B64Value(t[1]))
        case (Some(a), Some(b)) => Ok([Octets(a, b, 0, 0).0 as byte])
        case _ => Err
      else
        match (B64Value(t[0]), B64Value(t[1]), B64Value(t[2]))
        case (Some(a), Some(b), Some(c)) =>
          var o := Octets(a, b, c, 0);
          Ok([o.0 as byte, o.1 as byte])
        case _ => Err
    else
      match (B64Value(t[0]), B64Value(t[1]), B64Value(t[2]), B64Value(t[3]), DecodeGroups(t[4..]))
      case (Some(a), Some(b), Some(c), Some(d), Ok(rest)) =>
        var o := Octets(a, b, c, d);
        Ok([o.0 as byte, o.1 as byte, o.2 as byte] + rest)
      case _ => Err
  }

  /** Line breaks are skipped wherever they stand. */
  function StripBreaks(s: bytes): (r: bytes)
    ensures |r| <= |s|
  {
    if s == [] then []
    else if s[0] == 10 || s[0] == 13 then StripBreaks(s[1..])
    else [s[0]] + StripBreaks(s[1..])
  }

  function B64Decode(s: bytes): (r: Result<bytes>)
    ensures r.Ok? ==> 4 * |r.value| <= 3 * |s|
  {
    DecodeGroups(StripBreaks(s))
  }

  lemma {:induction false} GroupsRoundTrip(data: bytes)
    ensures DecodeGroups(B64Encode(data)) == Ok(data)
  {
    hide Sextets, Octets, B64Char, B64Value;
    if |data| >= 3 {
      GroupsRoundTrip(data[3..]);
      OctetsOfSextets(data[0] as nat, data[1] as nat, data[2] as nat);
      assert B64Encode(data)[4..] == B64Encode(data[3..]);
      assert data == [data[0], data[1], data[2]] + data[3..];
    } else if |data| == 2 {
      ShortGroups(data[0] as nat, data[1] as nat);
      assert data == [data[0], data[1]];
    } else if |data| == 1 {
      ShortGroups(data[0] as nat, 0);
      assert data == [data[0]];
    }
  }

  /** The bits dropped under the padding are zero on the way out. */
  lemma ShortGroups(x: nat, y: nat)
    requires x < 256 && y < 256
    ensures var r := Sextets(x, y, 0); Octets(r.0, r.1, r.2, 0).0 == x && Octets(r.0, r.1, r.2, 0).1 == y
    ensures var r := Sextets(x, 0, 0); Octets(r.0, r.1, 0, 0).0 == x
  {
    OctetsOfSextets(x, y, 0);
    OctetsOfSextets(x, 0, 0);
  }

  /** No white space and no control characters. */
  predicate Visible(s: bytes) {
    forall i | 0 <= i < |s| :: 33 <= s[i] <= 126
  }

  lemma {:induction false} NoBreaks(s: bytes)
    requires Visible(s)
    ensures StripBreaks(s) == s
  {
    if s != [] { NoBreaks(s[1..]); }
  }

  lemma B64RoundTrip(data: bytes)
    ensures B64Decode(B64Encode(data)) == Ok(data)
  {
    NoBreaks(B64Encode(data));
    GroupsRoundTrip(data);
  }

  // ------------------------------------------------------------ the alphabets

  /** The digits of both encodings, as their standard lists them: '0' to '9' and 'a' to 'f' (read in upper case
      too); 'A' to 'Z', 'a' to 'z', '0' to '9', '+' and '/'. */
  lemma Alphabets(i: nat)
    ensures i < 10 ==> HexDigit(i) as int == '0' as int + i
    ensures 10 <= i < 16 ==> HexDigit(i) as int == 'a' as int + i - 10
    ensures 10 <= i < 16 ==> HexValue(('A' as int + i - 10) as byte) == Some(i)
    ensures i < 16 ==> HexValue(HexDigit(i)) == Some(i)
    ensures i < 26 ==> B64Char(i) as int == 'A' as int + i
    ensures 26 <= i < 52 ==> B64Char(i) as int == 'a' as int + i - 26
    ensures 52 <= i < 62 ==> B64Char(i) as int == '0' as int + i - 52
    ensures B64Char(62) as int == '+' as int && B64Char(63) as int == '/' as int && PAD as int == '=' as int
  {
  }

  /** The test vectors of section 10 of RFC 4648: "f", "fo", "foo" and "foobar". */
  lemma Vectors()
    ensures B64Encode([102]) == [90, 103, 61, 61]
    ensures B64Encode([102, 111]) == [90, 109, 56, 61]
    ensures B64Encode([102, 111, 111]) == [90, 109, 57, 118]
    ensures HexEncode([102, 111]) == [54, 54, 54, 102]
  {
    assert [102 as byte, 111, 111][3..] == [];
    assert [102 as byte, 111][1..] == [111] && [111 as byte][1..] == [];
  }

  /** Other bytes are no digits of either encoding. */
  lemma NoDigits(b: byte)
    ensures HexValue(b).None? <==> !(48 <= b <= 57 || 65 <= b <= 70 || 97 <= b <= 102)
    ensures B64Value(b).None? <==> !(48 <= b <= 57 || 65 <= b <= 90 || 97 <= b <= 122 || b == 43 || b == 47)
  {
  }

  // ------------------------------------------------- trimming a byte string

  /** The UTF-8 encodings of the white-space runes. */
  predicate SpaceRune(x: bytes) {
    || (|x| == 1 && (9 <= x[0] <= 13 || x[0] == 32))
    || (|x| == 2 && x[0] == 0xC2 && x[1] in {0x85, 0xA0})
    || (|x| == 3 && x[0] == 0xE1 && x[1] == 0x9A && x[2] == 0x80)
    || (|x| == 3 && x[0] == 0xE2 && x[1] == 0x80 && (0x80 <= x[2] <= 0x8A || x[2] in {0xA8, 0xA9, 0xAF}))
    || (|x| == 3 && x[0] == 0xE2 && x[1] == 0x81 && x[2] == 0x9F)
    || (|x| == 3 && x[0] == 0xE3 && x[1] == 0x80 && x[2] == 0x80)
  }

  /** Length of the white-space rune at the left end, 0 when there is none. */
  function SpaceLeft(s: bytes): (n: nat)
    ensures n <= |s|
  {
    if |s| >= 1 && SpaceRune(s[..1]) then 1
    else if |s| >= 2 && SpaceRune(s[..2]) then 2
    else if |s| >= 3 && SpaceRune(s[..3]) then 3
    else 0
  }

  function SpaceRight(s: bytes): (n: nat)
    ensures n <= |s|
  {
    if |s| >= 1 && SpaceRune(s[|s| - 1..]) then 1
    else if |s| >= 2 && SpaceRune(s[|s| - 2..]) then 2
    else if |s| >= 3 && SpaceRune(s[|s| - 3..]) then 3
    else 0
  }

  function TrimBytes(s: bytes): (r: bytes)
    ensures |r| <= |s| && (|r| == |s| ==> r == s)
    decreases |s|
  {
    if SpaceLeft(s) > 0 then TrimBytes(s[SpaceLeft(s)..])
    else if SpaceRight(s) > 0 then TrimBytes(s[..|s| - SpaceRight(s)])
    else s
  }

  lemma NoSpaceRune(x: bytes)
    requires Visible(x)
    ensures !SpaceRune(x)
  {
  }

  /** One cut of the trim. */
  lemma TrimStep(s: bytes)
    ensures SpaceLeft(s) > 0 ==> TrimBytes(s) == TrimBytes(s[SpaceLeft(s)..])
    ensures SpaceLeft(s) == 0 && SpaceRight(s) > 0 ==> TrimBytes(s) == TrimBytes(s[..|s| - SpaceRight(s)])
    ensures SpaceLeft(s) == 0 && SpaceRight(s) == 0 ==> TrimBytes(s) == s
  {
    hide SpaceLeft, SpaceRight;
  }

  lemma VisibleSlice(s: bytes, i: nat, j: nat)
    requires Visible(s) && i <= j <= |s|
    ensures !SpaceRune(s[i..j])
  {
    NoSpaceRune(s[i..j]);
  }

  lemma NoSpaceLeft(e: bytes, y: bytes)
    requires Visible(e) && e != []
    ensures SpaceLeft(e + y) == 0
  {
    var all := e + y;
    forall n | 1 <= n <= 3 && n <= |all| ensures !SpaceRune(all[..n]) { FirstVisible(all[..n]); }
    hide SpaceRune;
  }

  lemma FirstVisible(x: bytes)
    requires x != [] && 33 <= x[0] <= 126
    ensures !SpaceRune(x)
  {
  }

  lemma VisibleStays(s: bytes)
    requires Visible(s)
    ensures TrimBytes(s) == s
  {
    TrimStep(s);
    if s != [] {
      NoSpaceLeft(s, []);
      assert s + [] == s;
    }
    if |s| >= 1 { VisibleSlice(s, |s| - 1, |s|); }
    if |s| >= 2 { VisibleSlice(s, |s| - 2, |s|); }
    if |s| >= 3 { VisibleSlice(s, |s| - 3, |s|); }
    hide SpaceRune, TrimBytes;
    assert forall n | 0 <= n <= |s| :: s[n..|s|] == s[n..];
  }

  // --------------------------------------------------------- the key field

  function DecodeKey(field: bytes): (r: Result<bytes>) {
    var f := TrimBytes(field);
    if |f| == 16 then Ok(f)
    else if |f| == 32 then HexDecode(f)
    else
      match B64Decode(f)
      case Err => Err
      case Ok(d) => if |d| == 16 then Ok(d) else if |d| == 32 then HexDecode(d) else Err
  }

  /** Whatever the field, a decoded key has 16 bytes. */
  lemma KeyHas16Bytes(field: bytes)
    ensures DecodeKey(field).Ok? ==> |DecodeKey(field).value| == 16
  {
  }

  /** Every key comes back from its hexadecimal form, from the base64 of that form (what outbound
      messages carry) and from its plain base64 form. */
  lemma KeyRoundTrip(key: bytes)
    requires |key| == 16
    ensures DecodeKey(HexEncode(key)) == Ok(key)
    ensures DecodeKey(B64Encode(HexEncode(key))) == Ok(key)
    ensures DecodeKey(B64Encode(key)) == Ok(key)
  {
    hide HexEncode, HexDecode, B64Encode, B64Decode, TrimBytes;
    var hex := HexEncode(key);
    HexRoundTrip(key);
    VisibleStays(hex);
    B64RoundTrip(hex);
    VisibleStays(B64Encode(hex));
    B64RoundTrip(key);
    VisibleStays(B64Encode(key));
  }

  lemma SpaceBefore(x: bytes, s: bytes)
    requires SpaceRune(x)
    ensures SpaceLeft(x + s) == |x|
  {
    var all := x + s;
    assert forall n: nat | n <= |x| :: all[..n] == x[..n];
    assert x[..|x|] == x;
  }

  lemma LastBytes(s: bytes, y: bytes, n: nat)
    requires n <= |y|
    ensures (s + y)[|s + y| - n..] == y[|y| - n..]
  {
  }

  lemma RuneBytes(y: bytes)
    requires SpaceRune(y)
    ensures 1 <= |y| <= 3 && (|y| > 1 ==> y[|y| - 1] >= 0x80) && (|y| > 2 ==> y[1] != 0xC2)
  {
  }

  lemma NotSingle(b: byte)
    requires b >= 0x80
    ensures !SpaceRune([b])
  {
  }

  lemma NotDouble(a: byte, b: byte)
    requires a != 0xC2
    ensures !SpaceRune([a, b])
  {
  }

  /** The end of a white-space rune is none by itself. */
  lemma NoSpaceInside(y: bytes)
    requires SpaceRune(y)
    ensures 1 <= |y| <= 3 && y[|y| - |y|..] == y
    ensures |y| > 1 ==> !SpaceRune(y[|y| - 1..])
    ensures |y| > 2 ==> !SpaceRune(y[|y| - 2..])
  {
    RuneBytes(y);
    hide SpaceRune;
    if |y| > 1 {
      NotSingle(y[|y| - 1]);
      assert y[|y| - 1..] == [y[|y| - 1]];
    }
    if |y| > 2 {
      NotDouble(y[1], y[2]);
      assert y[|y| - 2..] == [y[1], y[2]];
    }
  }

  lemma SpaceAfter(s: bytes, y: bytes)
    requires SpaceRune(y)
    ensures SpaceRight(s + y) == |y|
  {
    NoSpaceInside(y);
    hide SpaceRune;
    LastBytes(s, y, 1);
    if |y| > 1 { LastBytes(s, y, 2); }
    if |y| > 2 { LastBytes(s, y, 3); }
  }

  lemma TrimsLeft(x: bytes, s: bytes)
    requires SpaceRune(x)
    ensures TrimBytes(x + s) == TrimBytes(s)
  {
    SpaceBefore(x, s);
    RuneBytes(x);
    hide SpaceRune, SpaceLeft, SpaceRight, TrimBytes;
    TrimStep(x + s);
    assert (x + s)[|x|..] == s;
  }

  lemma TrimsRight(s: bytes, y: bytes)
    requires SpaceRune(y) && SpaceLeft(s + y) == 0
    ensures TrimBytes(s + y) == TrimBytes(s)
  {
    SpaceAfter(s, y);
    RuneBytes(y);
    hide SpaceRune, SpaceLeft, SpaceRight, TrimBytes;
    TrimStep(s + y);
    assert (s + y)[..|s|] == s;
  }

  lemma TrimsOne(x: bytes, e: bytes, y: bytes)
    requires SpaceRune(x) && SpaceRune(y) && Visible(e) && e != []
    ensures TrimBytes(x + e + y) == e
  {
    hide SpaceRune, SpaceLeft, SpaceRight, TrimBytes;
    NoSpaceLeft(e, y);
    VisibleStays(e);
    TrimsLeft(x, e + y);
    TrimsRight(e, y);
    assert x + e + y == x + (e + y);
  }

  /** White-space runes around an encoded key do not matter. */
  lemma PaddedKey(key: bytes, x: bytes, y: bytes)
    requires |key| == 16 && SpaceRune(x) && SpaceRune(y)
    ensures DecodeKey(x + HexEncode(key) + y) == Ok(key)
    ensures DecodeKey(x + B64Encode(HexEncode(key)) + y) == Ok(key)
  {
    hide HexEncode, HexDecode, B64Encode, B64Decode, TrimBytes, SpaceRune;
    KeyRoundTrip(key);
    TrimsOne(x, HexEncode(key), y);
    TrimsOne(x, B64Encode(HexEncode(key)), y);
    VisibleStays(HexEncode(key));
    VisibleStays(B64Encode(HexEncode(key)));
  }

  /** The bytes of white space, in the encoding of text: the ASCII ones, and the runes from U+0085 on. */
  lemma SpaceBytes(b: byte)
    ensures SpaceRune([b]) <==> b as int in {9, 10, 11, 12, 13, 32}
    ensures SpaceRune([0xC2, b]) <==> b as int in {0x85, 0xA0}
    ensures SpaceRune([0xE1, 0x9A, b]) <==> b as int == 0x80
    ensures SpaceRune([0xE2, 0x80, b]) <==> 0x80 <= b as int <= 0x8A || b as int in {0xA8, 0xA9, 0xAF}
    ensures SpaceRune([0xE2, 0x81, b]) <==> b as int == 0x9F
    ensures SpaceRune([0xE3, 0x80, b]) <==> b as int == 0x80
  {
  }

  /** Line breaks inside a base64 field do not matter. */
  lemma {:induction false} BrokenLines(a: bytes, b: bytes, brk: byte)
    requires brk as int == 10 || brk as int == 13
    ensures StripBreaks(a + [brk] + b) == StripBreaks(a + b)
  {
    if a == [] {
      assert [] + [brk] + b == [brk] + b && ([brk] + b)[1..] == b && [] + b == b;
    } else {
      BrokenLines(a[1..], b, brk);
      assert (a + [brk] + b)[1..] == a[1..] + [brk] + b && (a + b)[1..] == a[1..] + b;
    }
  }

  /** Sixteen raw bytes are used as they are exactly when trimming leaves them alone; a key that begins
      or ends with the bytes of a white-space rune is refused. */
  lemma RawKeyKept(key: bytes)
    requires |key| == 16
    ensures DecodeKey(key) == if SpaceLeft(key) == 0 && SpaceRight(key) == 0 then Ok(key) else Err
  {
    var f := TrimBytes(key);
    if SpaceLeft(key) > 0 || SpaceRight(key) > 0 {
      assert |f| < 16;
    }
  }

  /** What one side uploads and announces, the other side downloads and reads: for every file and every
      key, decoding the announced key and decrypting the uploaded bytes gives the file back. */
  lemma MediaRoundTrip(c: BlockCipher, key: bytes, plain: bytes, wire: bytes)
    requires c.Invertible() && |key| == 16
    requires wire in {HexEncode(key), B64Encode(HexEncode(key))}
    ensures DecodeKey(wire) == Ok(key)
    ensures Encrypt(c, key, plain).Ok?
    ensures Decrypt(c, DecodeKey(wire).value, Encrypt(c, key, plain).value) == Ok(plain)
  {
    KeyRoundTrip(key);
    DecryptInvertsEncrypt(c, key, plain);
  }
}
