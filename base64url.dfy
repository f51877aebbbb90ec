/** Go's `base64.RawURLEncoding`: the URL- and filename-safe alphabet of section 5 of
    RFC 4648 with the trailing `=` padding left out, as section 3.2 of RFC 4648 permits.
    The handler only encodes; the decoder is here as the encoder's inverse, so that the
    round trip shows the token loses none of the random bytes. */
module Base64Url {
  import opened Wrappers

  newtype byte = b: int | 0 <= b < 256

  /** A 6-bit value. */
  type Sextet = v: int | 0 <= v < 64

  /** The 64 characters of the URL-safe alphabet (RFC 4648, Table 2). */
  predicate IsUrlSafeChar(c: char) {
    'A' <= c <= 'Z' || 'a' <= c <= 'z' || '0' <= c <= '9' || c == '-' || c == '_'
  }

  /** The alphabet entry for a sextet. */
  function Symbol(v: Sextet): (c: char)
    ensures IsUrlSafeChar(c)
  {
    if v < 26 then ('A' as int + v) as char
    else if v < 52 then ('a' as int + (v - 26)) as char
    else if v < 62 then ('0' as int + (v - 52)) as char
    else if v == 62 then '-'
    else '_'
  }

  /** The sextet an alphabet character stands for; `None` outside the alphabet. */
  function Value(c: char): (r: Option<Sextet>)
    ensures r.Some? <==> IsUrlSafeChar(c)
    ensures r.Some? ==> Symbol(r.value) == c
  {
    if 'A' <= c <= 'Z' then Some(c as int - 'A' as int)
    else if 'a' <= c <= 'z' then Some(c as int - 'a' as int + 26)
    else if '0' <= c <= '9' then Some(c as int - '0' as int + 52)
    else if c == '-' then Some(62)
    else if c == '_' then Some(63)
    else None
  }

  lemma ValueOfSymbol(v: Sextet)
    ensures Value(Symbol(v)) == Some(v)
  {
  }

  /** Length of the unpadded encoding of `n` bytes: four characters per whole group of
      three bytes, then two for one leftover byte and three for two. */
  function EncodedLen(n: nat): nat {
    n / 3 * 4 + (if n % 3 == 0 then 0 else n % 3 + 1)
  }

  /** The sextets of a group of one to three bytes; the missing bytes count as zero. */
  function Sextets(g: seq<byte>): (cs: seq<Sextet>)
    requires 1 <= |g| <= 3
    ensures |cs| == 4
  {
    var b0 := g[0] as int;
    var b1 := if |g| > 1 then g[1] as int else 0;
    var b2 := if |g| > 2 then g[2] as int else 0;
    [b0 / 4, b0 % 4 * 16 + b1 / 16, b1 % 16 * 4 + b2 / 64, b2 % 64]
  }

  /** The characters for one group of one to three bytes: the group's bits, taken six
      at a time, with the last sextet filled up with zero bits. */
  function EncodeGroup(g: seq<byte>): (s: string)
    requires 1 <= |g| <= 3
    ensures |s| == |g| + 1
    ensures forall k :: 0 <= k < |s| ==> IsUrlSafeChar(s[k])
  {
    var cs := Sextets(g);
    [Symbol(cs[0]), Symbol(cs[1]), Symbol(cs[2]), Symbol(cs[3])][..|g| + 1]
  }

  /** `RawURLEncoding.EncodeToString(bytes)`. */
  function Encode(bytes: seq<byte>): (s: string)
    ensures |s| == EncodedLen(|bytes|)
    ensures forall k :: 0 <= k < |s| ==> IsUrlSafeChar(s[k])
    decreases |bytes|
  {
    if |bytes| == 0 then ""
    else if |bytes| <= 3 then EncodeGroup(bytes)
    else EncodeGroup(bytes[..3]) + Encode(bytes[3..])
  }

  /** The bytes of one group of two to four characters; the bits that fill up the
      last sextet are dropped, as Go's non-strict decoder does. */
  function DecodeGroup(s: string): (r: Option<seq<byte>>)
    requires 2 <= |s| <= 4
    ensures r.Some? ==> |r.value| == |s| - 1
  {
    var v0, v1 := Value(s[0]), Value(s[1]);
    var v2 := if |s| > 2 then Value(s[2]) else Some(0);
    var v3 := if |s| > 3 then Value(s[3]) else Some(0);
    if v0.None? || v1.None? || v2.None? || v3.None? then None
    else Some(Bytes([v0.value, v1.value, v2.value, v3.value])[..|s| - 1])
  }

  /** The three bytes whose bits four sextets carry. */
  function Bytes(cs: seq<Sextet>): (bs: seq<byte>)
    requires |cs| == 4
    ensures |bs| == 3
  {
    var c0, c1, c2, c3: int := cs[0], cs[1], cs[2], cs[3];
    [(c0 * 4 + c1 / 16) as byte, (c1 % 16 * 16 + c2 / 4) as byte, (c2 % 4 * 64 + c3) as byte]
  }

  /** `RawURLEncoding.DecodeString(s)` in its default, non-strict mode: `None` for a
      character outside the alphabet or a lone trailing character. */
  function Decode(s: string): (r: Option<seq<byte>>)
    decreases |s|
  {
    if |s| == 0 then Some([])
    else if |s| == 1 then None
    else if |s| <= 4 then DecodeGroup(s)
    else
      var head, tail := DecodeGroup(s[..4]), Decode(s[4..]);
      if head.None? || tail.None? then None else Some(head.value + tail.value)
  }

  /** The bit arithmetic of one group: three bytes split into four sextets and put back
      together give the same three bytes. */
  lemma GroupArithmetic(b0: int, b1: int, b2: int)
    requires 0 <= b0 < 256 && 0 <= b1 < 256 && 0 <= b2 < 256
    ensures (b0 / 4) * 4 + (b0 % 4 * 16 + b1 / 16) / 16 == b0
    ensures (b0 % 4 * 16 + b1 / 16) % 16 * 16 + (b1 % 16 * 4 + b2 / 64) / 4 == b1
    ensures (b1 % 16 * 4 + b2 / 64) % 4 * 64 + b2 % 64 == b2
  {
    assert (b0 % 4 * 16 + b1 / 16) / 16 == b0 % 4;
    assert (b0 % 4 * 16 + b1 / 16) % 16 == b1 / 16;
    assert (b1 % 16 * 4 + b2 / 64) / 4 == b1 % 16;
    assert (b1 % 16 * 4 + b2 / 64) % 4 == b2 / 64;
  }

  lemma GroupRoundTrip(g: seq<byte>)
    requires 1 <= |g| <= 3
    ensures DecodeGroup(EncodeGroup(g)) == Some(g)
  {
    DecodeSymbols(Sextets(g), |g| + 1);
    SextetsJoin(g);
  }

  /** Putting the sextets of a group back together gives the group. */
  lemma SextetsJoin(g: seq<byte>)
    requires 1 <= |g| <= 3
    ensures Bytes(Sextets(g))[..|g|] == g
  {
    var b0 := g[0] as int;
    var b1 := if |g| > 1 then g[1] as int else 0;
    var b2 := if |g| > 2 then g[2] as int else 0;
    GroupArithmetic(b0, b1, b2);
    assert [b0 as byte, b1 as byte, b2 as byte][..|g|] == g;
  }

  /** Decoding the symbols of four sextets, the missing ones taken as zero. */
  lemma DecodeSymbols(cs: seq<Sextet>, n: nat)
    requires |cs| == 4 && 2 <= n <= 4 && (n <= 2 ==> cs[2] == 0) && (n <= 3 ==> cs[3] == 0)
    ensures DecodeGroup([Symbol(cs[0]), Symbol(cs[1]), Symbol(cs[2]), Symbol(cs[3])][..n]) == Some(Bytes(cs)[..n - 1])
  {
    var s := [Symbol(cs[0]), Symbol(cs[1]), Symbol(cs[2]), Symbol(cs[3])][..n];
    ValueOfSymbol(cs[0]);
    ValueOfSymbol(cs[1]);
    ValueOfSymbol(cs[2]);
    ValueOfSymbol(cs[3]);
    var v2 := if n > 2 then Value(s[2]) else Some(0);
    var v3 := if n > 3 then Value(s[3]) else Some(0);
    assert Value(s[0]) == Some(cs[0]) && Value(s[1]) == Some(cs[1]);
    assert v2 == Some(cs[2]) && v3 == Some(cs[3]);
    assert [Value(s[0]).value, Value(s[1]).value, v2.value, v3.value] == cs;
  }

  /** A non-empty byte string encodes to at least two characters. */
  lemma EncodedLenAtLeastTwo(n: nat)
    requires n >= 1
    ensures EncodedLen(n) >= 2
  {
  }

  /** Decoding an encoding gives back the bytes. */
  lemma {:induction false} DecodeEncode(bytes: seq<byte>)
    ensures Decode(Encode(bytes)) == Some(bytes)
    decreases |bytes|
  {
    if 1 <= |bytes| <= 3 {
      GroupRoundTrip(bytes);
    } else if |bytes| > 3 {
      var head, tail := EncodeGroup(bytes[..3]), Encode(bytes[3..]);
      assert Encode(bytes) == head + tail;
      EncodedLenAtLeastTwo(|bytes| - 3);
      DecodeCons(head, tail);
      GroupRoundTrip(bytes[..3]);
      DecodeEncode(bytes[3..]);
      assert bytes == bytes[..3] + bytes[3..];
    }
  }

  /** A string longer than one group decodes as its first four characters followed by
      the rest. */
  lemma DecodeCons(head: string, tail: string)
    requires |head| == 4 && |tail| >= 1
    ensures Decode(head + tail) ==
      var h, t := DecodeGroup(head), Decode(tail);
      if h.None? || t.None? then None else Some(h.value + t.value)
  {
    var s := head + tail;
    assert s[..4] == head;
    assert s[4..] == tail;
  }

  /** Different byte strings never share an encoding. */
  lemma EncodeInjective(a: seq<byte>, b: seq<byte>)
    requires Encode(a) == Encode(b)
    ensures a == b
  {
    DecodeEncode(a);
    DecodeEncode(b);
  }

  /** The 32 random bytes of a storage key encode to 43 alphabet characters; none of
      them is `=`, `/` or `.`. */
  lemma TokenShape(bytes: seq<byte>)
    requires |bytes| == 32
    ensures |Encode(bytes)| == 43
    ensures forall k :: 0 <= k < 43 ==> IsUrlSafeChar(Encode(bytes)[k])
    ensures '=' !in Encode(bytes) && '/' !in Encode(bytes) && '.' !in Encode(bytes)
  {
    var s := Encode(bytes);
    assert forall c :: c in s ==> IsUrlSafeChar(c);
  }
}
