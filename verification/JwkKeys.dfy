/** RSA keys of a JWKS document: the exponent loop on 64-bit integers, its big-integer twin, and the
    map from key id to key. */
module JwkKeys {
  import opened Bytes
  import opened Wrappers

  const TWO_64: nat := 0x1_0000_0000_0000_0000
  const TWO_63: nat := 0x8000_0000_0000_0000

  // ---------------------------------------------------------------- 64-bit words

  /** A word's bits, 0 <= w < 2^64, read as Go's int. */
  function Signed64(w: nat): int {
    if w < TWO_63 then w else w - TWO_64
  }

  /** Shifting left by eight drops the top byte. */
  function ShiftLeft8(w: nat): nat {
    w * 256 % TWO_64
  }

  /** Bitwise or. */
  function BitOr(x: nat, y: nat): nat
    decreases x + y
  {
    if x == 0 && y == 0 then 0
    else 2 * BitOr(x / 2, y / 2) + (if x % 2 == 1 || y % 2 == 1 then 1 else 0)
  }

  /** Bit k of a number. */
  predicate Bit(x: nat, k: nat) {
    if k == 0 then x % 2 == 1 else Bit(x / 2, k - 1)
  }

  lemma {:induction false} BitOrBits(x: nat, y: nat, k: nat)
    ensures Bit(BitOr(x, y), k) <==> Bit(x, k) || Bit(y, k)
  {
    assert BitOr(x, y) / 2 == BitOr(x / 2, y / 2);
    if k > 0 {
      BitOrBits(x / 2, y / 2, k - 1);
    }
  }

  lemma {:induction false} BitOrZero(x: nat)
    ensures BitOr(x, 0) == x
  {
    if x > 0 {
      BitOrZero(x / 2);
    }
  }

  /** Where no bit is set on both sides, or is addition. */
  lemma {:induction false} BitOrAdds(high: nat, low: nat, width: nat)
    requires low < Power2(width)
    ensures BitOr(high * Power2(width), low) == high * Power2(width) + low
  {
    if width == 0 {
      BitOrZero(high);
    } else {
      var half := high * Power2(width - 1);
      assert high * Power2(width) == 2 * half;
      BitOrAdds(high, low / 2, width - 1);
      assert 2 * half / 2 == half && 2 * half % 2 == 0;
    }
  }

  function Power2(n: nat): (p: nat)
    ensures p > 0
  {
    if n == 0 then 1 else 2 * Power2(n - 1)
  }

  /** One turn of the loop appends a byte to the low 64 bits of the value. */
  lemma ShiftOrAppends(value: nat, b: byte)
    ensures BitOr(ShiftLeft8(value % TWO_64), b) == (256 * value + b) % TWO_64
  {
    var quotient, w := value / TWO_64, value % TWO_64;
    var high := w % 0x100_0000_0000_0000;
    assert ShiftLeft8(w) == high * 256;
    assert Power2(8) == 256 by {
      assert Power2(4) == 16;
    }
    BitOrAdds(high, b, 8);
    assert 256 * value + b == (256 * quotient + w / 0x100_0000_0000_0000) * TWO_64 + (high * 256 + b);
    Remainder(256 * quotient + w / 0x100_0000_0000_0000, high * 256 + b);
  }

  lemma Remainder(q: nat, r: nat)
    requires r < TWO_64
    ensures (q * TWO_64 + r) % TWO_64 == r
  {
  }

  // ---------------------------------------------------------------- the two decoders

  /** e is the value modulo 2^64, in the range of a 64-bit int. */
  ghost predicate Wraps64(value: nat, e: int) {
    && -0x8000_0000_0000_0000 <= e < 0x8000_0000_0000_0000
    && (value - e) % 0x1_0000_0000_0000_0000 == 0
  }

  lemma Signed64Wraps(value: nat, e: int)
    ensures e == Signed64(value % TWO_64) <==> Wraps64(value, e)
  {
    var (q, w) := (value / TWO_64, value % TWO_64);
    assert value == q * TWO_64 + w;
    if Wraps64(value, e) {
      var d := (value - e) / TWO_64;
      assert value - e == d * TWO_64;
      assert w - e == (d - q) * TWO_64;
    }
  }

  /** The loop: shift and or, wrapping around at 64 bits. */
  method ExponentLoop(bytes: Data) returns (e: int)
    ensures e == Signed64(Value(bytes) % TWO_64) && Wraps64(Value(bytes), e)
  {
    var word: nat := 0;
    for i := 0 to |bytes|
      invariant word == Value(bytes[..i]) % TWO_64
    {
      ShiftOrAppends(Value(bytes[..i]), bytes[i]);
      assert bytes[..i + 1][..i] == bytes[..i];
      word := BitOr(ShiftLeft8(word), bytes[i]);
    }
    assert bytes[..|bytes|] == bytes;
    e := Signed64(word);
    Signed64Wraps(Value(bytes), e);
  }

  /** What the loop's caller accepts; zero is refused. */
  function LoopExponent(bytes: Data): Option<int> {
    var e := Signed64(Value(bytes) % TWO_64);
    if e == 0 then None else Some(e)
  }

  /** big.Int's Int64, undefined from 2^63 on. */
  function BigExponent(bytes: Data): Option<int> {
    if Value(bytes) < TWO_63 then Some(Value(bytes)) else None
  }

  /** The loop computes the big-endian value exactly when that is a positive int. */
  lemma LoopExactIff(bytes: Data)
    ensures LoopExponent(bytes) == Some(Value(bytes)) <==> 0 < Value(bytes) < 0x8000_0000_0000_0000
    ensures LoopExponent(bytes) == None <==> Value(bytes) % 0x1_0000_0000_0000_0000 == 0
    ensures LoopExponent(bytes).Some? ==> Wraps64(Value(bytes), LoopExponent(bytes).value)
  {
    assert Value(bytes) < TWO_64 ==> Value(bytes) % TWO_64 == Value(bytes);
    Signed64Wraps(Value(bytes), Signed64(Value(bytes) % TWO_64));
  }

  /** The two decoders agree on every value below 2^63 except zero, which only the big-integer one
      accepts. */
  lemma DecodersAgreeIff(bytes: Data)
    requires Value(bytes) < 0x8000_0000_0000_0000
    ensures BigExponent(bytes) == Some(Value(bytes))
    ensures LoopExponent(bytes) == BigExponent(bytes) <==> Value(bytes) != 0
  {
    LoopExactIff(bytes);
  }

  function Zeros(n: nat): Data {
    seq(n, _ => 0)
  }

  /** Any number of leading zero bytes changes neither result. */
  lemma {:induction false} LeadingZerosIgnored(n: nat, bytes: Data)
    ensures LoopExponent(Zeros(n) + bytes) == LoopExponent(bytes)
    ensures BigExponent(Zeros(n) + bytes) == BigExponent(bytes)
  {
    if n > 0 {
      LeadingZerosIgnored(n - 1, bytes);
      assert Zeros(n) + bytes == [0] + (Zeros(n - 1) + bytes);
      ValueLeadingZero(Zeros(n - 1) + bytes);
    } else {
      assert Zeros(0) + bytes == bytes;
    }
  }

  /** Only the last eight bytes count: an encoding whose tail is zero is refused whatever precedes. */
  lemma {:induction false} LastEightBytes(bytes: Data)
    ensures |bytes| >= 8 ==> LoopExponent(bytes) == LoopExponent(bytes[|bytes| - 8..])
  {
    if |bytes| >= 8 {
      var q := SplitValue(bytes, 8);
      var tail := bytes[|bytes| - 8..];
      ValueBound(tail);
      assert Pow256(8) == TWO_64 by {
        assert Pow256(4) == 0x1_0000_0000;
      }
      Remainder(q, Value(tail));
    }
  }

  lemma Regroup(q: nat, p: nat, tail: nat, last: nat)
    ensures 256 * (q * p + tail) + last == q * (256 * p) + (256 * tail + last)
  {
  }

  lemma {:induction false} SplitValue(bytes: Data, n: nat) returns (q: nat)
    requires n <= |bytes|
    ensures Value(bytes) == q * Pow256(n) + Value(bytes[|bytes| - n..])
  {
    if n == 0 {
      q := Value(bytes);
      assert q * Pow256(0) == q;
    } else {
      var rest := bytes[..|bytes| - 1];
      q := SplitValue(rest, n - 1);
      ValueOfTail(bytes, n);
      Regroup(q, Pow256(n - 1), Value(rest[|rest| - (n - 1)..]), bytes[|bytes| - 1]);
    }
  }

  lemma ValueOfTail(bytes: Data, n: nat)
    requires 0 < n <= |bytes|
    ensures
      var rest := bytes[..|bytes| - 1];
      Value(bytes[|bytes| - n..]) == 256 * Value(rest[|rest| - (n - 1)..]) + bytes[|bytes| - 1]
  {
    var (rest, tail) := (bytes[..|bytes| - 1], bytes[|bytes| - n..]);
    assert tail[..n - 1] == rest[|rest| - (n - 1)..];
  }

  // ---------------------------------------------------------------- the key map

  /** One entry of the document; n and e are None where the base64 does not decode. */
  datatype Jwk = Jwk(kid: string, kty: string, n: Option<Data>, e: Option<Data>)

  datatype PublicKey = PublicKey(modulus: nat, exponent: int)

  type Document = seq<Jwk>

  function Decode(k: Jwk): Option<PublicKey> {
    if k.n.None? || k.e.None? || LoopExponent(k.e.value).None? then None
    else Some(PublicKey(Value(k.n.value), LoopExponent(k.e.value).value))
  }

  method RsaPubKeyFromJWK(k: Jwk) returns (r: Option<PublicKey>)
    ensures r == Decode(k)
    ensures r.Some? <==> k.n.Some? && k.e.Some? && Value(k.e.value) % 0x1_0000_0000_0000_0000 != 0
    ensures r.Some? ==> r.value.modulus == Value(k.n.value) && Wraps64(Value(k.e.value), r.value.exponent)
  {
    if k.n.None? {
      return None;
    }
    if k.e.None? {
      return None;
    }
    LoopExactIff(k.e.value);
    var e := ExponentLoop(k.e.value);
    if e == 0 {
      return None;
    }
    return Some(PublicKey(Value(k.n.value), e));
  }

  /** What the document's map does with an entry: only an RSA key with an id and with fields that
      decode is put in. */
  function With(keys: map<string, PublicKey>, k: Jwk): map<string, PublicKey> {
    if k.kty != "RSA" || k.kid == "" || Decode(k).None? then keys else keys[k.kid := Decode(k).value]
  }

  function KeysOf(doc: Document): map<string, PublicKey> {
    if doc == [] then map[] else With(KeysOf(doc[..|doc| - 1]), doc[|doc| - 1])
  }

  /** An RSA entry with a key id, a modulus, and an exponent whose low 64 bits are not all zero. */
  predicate Usable(k: Jwk) {
    k.kty == "RSA" && k.kid != "" && k.n.Some? && k.e.Some? && Value(k.e.value) % 0x1_0000_0000_0000_0000 != 0
  }

  /** The key is the entry's: its modulus, and its exponent as a 64-bit int. */
  ghost predicate KeyIs(k: Jwk, key: PublicKey)
    requires Usable(k)
  {
    key.modulus == Value(k.n.value) && Wraps64(Value(k.e.value), key.exponent) && key.exponent != 0
  }

  /** i is the last usable entry for kid. */
  ghost predicate LastFor(doc: Document, kid: string, i: nat) {
    && i < |doc| && Usable(doc[i]) && doc[i].kid == kid
    && forall j :: i < j < |doc| && Usable(doc[j]) ==> doc[j].kid != kid
  }

  lemma WithUsable(keys: map<string, PublicKey>, k: Jwk)
    ensures Usable(k) ==> With(keys, k) == keys[k.kid := With(keys, k)[k.kid]] && KeyIs(k, With(keys, k)[k.kid])
    ensures !Usable(k) ==> With(keys, k) == keys
  {
    if k.e.Some? {
      LoopExactIff(k.e.value);
    }
  }

  /** An entry that is not usable for an id does not change which one is its last. */
  lemma LastForInit(doc: Document, kid: string)
    requires doc != [] && !(Usable(doc[|doc| - 1]) && doc[|doc| - 1].kid == kid)
    ensures forall i: nat :: LastFor(doc, kid, i) <==> LastFor(doc[..|doc| - 1], kid, i)
  {
    var init := doc[..|doc| - 1];
    assert forall i :: 0 <= i < |init| ==> init[i] == doc[i];
    assert forall i: nat :: LastFor(doc, kid, i) ==> i < |init|;
  }

  /** Each id maps to the key of its last usable entry, and only ids with one are mapped. */
  lemma {:induction false} LastUsableWins(doc: Document, kid: string)
    ensures kid in KeysOf(doc) <==> exists i: nat :: LastFor(doc, kid, i)
    ensures forall i: nat :: LastFor(doc, kid, i) ==> KeyIs(doc[i], KeysOf(doc)[kid])
    ensures kid in KeysOf(doc) ==> kid != ""
  {
    if doc != [] {
      var init, last := doc[..|doc| - 1], |doc| - 1;
      LastUsableWins(init, kid);
      WithUsable(KeysOf(init), doc[last]);
      assert forall i :: 0 <= i < last ==> init[i] == doc[i];
      if Usable(doc[last]) && doc[last].kid == kid {
        assert LastFor(doc, kid, last);
        assert forall i: nat :: LastFor(doc, kid, i) ==> i == last;
      } else {
        LastForInit(doc, kid);
        if kid in KeysOf(init) {
          var i: nat :| LastFor(init, kid, i);
          assert LastFor(doc, kid, i);
        }
      }
    }
  }

  method ParseKeys(doc: Document) returns (result: map<string, PublicKey>)
    ensures result == KeysOf(doc)
    ensures forall kid :: kid in result <==> exists i: nat :: LastFor(doc, kid, i)
    ensures forall kid, i: nat :: LastFor(doc, kid, i) ==> KeyIs(doc[i], result[kid])
  {
    result := map[];
    for i := 0 to |doc|
      invariant result == KeysOf(doc[..i])
    {
      assert doc[..i + 1][..i] == doc[..i];
      var k := doc[i];
      if k.kty != "RSA" || k.kid == "" {
        continue;
      }
      var pub := RsaPubKeyFromJWK(k);
      if pub.None? {
        continue;
      }
      result := result[k.kid := pub.value];
    }
    assert doc[..|doc|] == doc;
    forall kid {
      LastUsableWins(doc, kid);
    }
  }
}
