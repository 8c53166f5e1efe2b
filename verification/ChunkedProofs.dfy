/** Injectivity of the associated data and nonces, the round trip, canonical acceptance, and
    integrity of an upload under an ideal AEAD. */
module ChunkedProofs {
  import opened Wrappers
  import opened Bytes
  import opened ChunkedFormat

  // ---------------------------------------------------------------- associated data

  lemma {:induction false} ParseDecimalInverts(n: nat)
    ensures ParseDecimal(Decimal(n)) == n
  {
    if n < 10 {
      assert Decimal(n)[..0] == [];
    } else {
      ParseDecimalInverts(n / 10);
      var s := Decimal(n);
      assert s[..|s| - 1] == Decimal(n / 10);
    }
  }

  /** A string splits at its first colon in one way only. */
  lemma FirstColonUnique(a: Data, x: Data, b: Data, y: Data)
    requires COLON !in a && COLON !in b
    requires a + [COLON] + x == b + [COLON] + y
    ensures a == b && x == y
  {
    var s := a + [COLON] + x;
    assert s == b + [COLON] + y;
    assert s[|a|] == COLON && s[|b|] == COLON;
    assert forall k :: 0 <= k < |a| ==> s[k] == a[k];
    assert forall k :: 0 <= k < |b| ==> s[k] == b[k];
    assert a == s[..|a|] == b;
    assert x == s[|a| + 1..] == y;
  }

  /** The printed associated data determines chunk number, chunk count and file id, whatever
      bytes (colons and digits included) the file id holds. */
  lemma AadInjective(i: nat, n: nat, f: Data, i': nat, n': nat, f': Data)
    requires Aad(i, n, f) == Aad(i', n', f')
    ensures i == i' && n == n' && f == f'
  {
    var rest, rest' := Decimal(n) + [COLON] + f, Decimal(n') + [COLON] + f';
    assert Aad(i, n, f) == Decimal(i) + [COLON] + rest;
    assert Aad(i', n', f') == Decimal(i') + [COLON] + rest';
    FirstColonUnique(Decimal(i), rest, Decimal(i'), rest');
    FirstColonUnique(Decimal(n), f, Decimal(n'), f');
    ParseDecimalInverts(i);
    ParseDecimalInverts(i');
    ParseDecimalInverts(n);
    ParseDecimalInverts(n');
  }

  /** s is the decimal numeral of n: ASCII digits, the first of them not zero unless it is the only one. */
  ghost predicate IsNumeral(s: Data, n: nat) {
    && s != [] && (forall d <- s :: 48 <= d <= 57) && (|s| > 1 ==> s[0] != 48)
    && ParseDecimal(s) == n
  }

  /** The associated data is the numerals of chunk number and chunk count and the file id, in that
      order, with colons between them. */
  lemma AadLayout(i: nat, n: nat, f: Data) returns (number: Data, count: Data)
    ensures IsNumeral(number, i) && IsNumeral(count, n)
    ensures Aad(i, n, f) == number + [58] + count + [58] + f
  {
    number, count := Decimal(i), Decimal(n);
    ParseDecimalInverts(i);
    ParseDecimalInverts(n);
  }

  // ---------------------------------------------------------------- nonces

  /** The byte-wise carry is addition of one modulo 256^length, wrap-around included. */
  lemma {:induction false} IncrementAddsOne(s: Data)
    ensures Value(Increment(s)) == if Value(s) + 1 == Pow256(|s|) then 0 else Value(s) + 1
  {
    ValueBound(s);
    if s != [] {
      var init := s[..|s| - 1];
      IncrementAddsOne(init);
      ValueBound(init);
      assert Increment(s)[..|s| - 1] == if s[|s| - 1] == 255 then Increment(init) else init;
    }
  }

  lemma ModSuccessor(a: nat, m: nat)
    requires m > 1
    ensures (a + 1) % m == if a % m + 1 == m then 0 else a % m + 1
  {
    var q := a / m;
    assert a == q * m + a % m;
    if a % m + 1 == m {
      assert a + 1 == (q + 1) * m;
      ModOfSum(q + 1, 0, m);
    } else {
      ModOfSum(q, a % m + 1, m);
    }
  }

  lemma ModOfSum(q: nat, r: nat, m: nat)
    requires 0 <= r < m
    ensures (q * m + r) % m == r
  {
    var t := q * m + r;
    var q', r' := t / m, t % m;
    assert t == m * q' + r';
    assert q < q' ==> m * q' >= m * (q + 1);
    assert q' < q ==> m * q >= m * (q' + 1);
  }

  /** The carry loop steps from each nonce to the next. */
  lemma NonceStep(iv: Data, i: nat)
    requires iv != []
    ensures Increment(NonceAt(iv, i)) == NonceAt(iv, i + 1)
  {
    var s, t := NonceAt(iv, i), NonceAt(iv, i + 1);
    assert Value(iv) + (i + 1) == (Value(iv) + i) + 1;
    IncrementTo(s, t, Value(iv) + i);
  }

  lemma NonceZero(iv: Data)
    ensures NonceAt(iv, 0) == iv
  {
    ValueBound(iv);
    ModOfSum(0, Value(iv), Pow256(|iv|));
    ValueInjective(NonceAt(iv, 0), iv);
  }

  lemma IncrementTo(s: Data, t: Data, a: nat)
    requires |s| == |t| != 0
    requires Value(s) == a % Pow256(|s|) && Value(t) == (a + 1) % Pow256(|s|)
    ensures Increment(s) == t
  {
    Pow256Monotone(1, |s|);
    IncrementAddsOne(s);
    ModSuccessor(a, Pow256(|s|));
    ValueInjective(Increment(s), t);
  }

  /** No two chunks of an upload share a nonce (NIST SP 800-38D section 8), even when the counter wraps. */
  lemma NoncesDistinct(iv: Data, i: nat, j: nat)
    requires |iv| == 12 && i < j <= 16384
    ensures NonceAt(iv, i) != NonceAt(iv, j)
  {
    assert Pow256(12) == 0x1_0000_0000_0000_0000_0000_0000;
    if NonceAt(iv, i) == NonceAt(iv, j) {
      EqualRemaindersAreFarApart(Value(iv) + i, Value(iv) + j, Pow256(|iv|));
    }
  }

  lemma EqualRemaindersAreFarApart(a: nat, b: nat, m: nat)
    requires 0 < m && a < b && a % m == b % m
    ensures b - a >= m
  {
    var q, q' := a / m, b / m;
    assert a == m * q + a % m && b == m * q' + b % m;
    assert b - a == m * (q' - q);
    assert q' - q < 1 ==> m * (q' - q) <= 0;
    assert q' - q >= 1 ==> m * (q' - q) >= m;
  }

  // ---------------------------------------------------------------- framing

  /** The ciphertexts the decoder read, when it read chunks i.. successfully. */
  function ReadFrames(lib: Library, s: Session, i: nat, stream: Data): (cts: seq<Data>)
    requires OpenChunks(lib, s, i, stream).Ok?
    decreases s.total - i
  {
    if i >= s.total then []
    else
      var end := 4 + Value(stream[..4]);
      [stream[4..end]] + ReadFrames(lib, s, i + 1, stream[end..])
  }

  /** The plaintext chunks behind ReadFrames. */
  function ReadChunks(lib: Library, s: Session, i: nat, stream: Data): (pts: seq<Data>)
    requires OpenChunks(lib, s, i, stream).Ok?
    decreases s.total - i
  {
    if i >= s.total then []
    else
      var end := 4 + Value(stream[..4]);
      [lib.open(s.key, NonceAt(s.iv, i), Aad(i, s.total, s.fileId), stream[4..end]).value]
      + ReadChunks(lib, s, i + 1, stream[end..])
  }

  /** Ciphertexts and plaintexts correspond, chunk by chunk from number i. */
  ghost predicate AllOpen(lib: Library, s: Session, i: nat, cts: seq<Data>, pts: seq<Data>)
    decreases |cts|
  {
    |cts| == |pts| &&
    (cts == [] ||
      (OpensTo(lib, s, i, cts[0], pts[0]) && AllOpen(lib, s, i + 1, cts[1..], pts[1..])))
  }

  ghost predicate OpensTo(lib: Library, s: Session, i: nat, ct: Data, pt: Data) {
    lib.open(s.key, NonceAt(s.iv, i), Aad(i, s.total, s.fileId), ct) == Some(pt)
  }

  lemma {:induction false} AllOpenAt(lib: Library, s: Session, i: nat, cts: seq<Data>, pts: seq<Data>, k: nat)
    requires AllOpen(lib, s, i, cts, pts) && k < |cts|
    ensures OpensTo(lib, s, i + k, cts[k], pts[k])
    decreases k
  {
    if k > 0 {
      AllOpenAt(lib, s, i + 1, cts[1..], pts[1..], k - 1);
      assert cts[1..][k - 1] == cts[k] && pts[1..][k - 1] == pts[k] && i + 1 + (k - 1) == i + k;
    }
  }

  lemma {:induction false} AllOpenFrom(lib: Library, s: Session, i: nat, cts: seq<Data>, pts: seq<Data>)
    requires |cts| == |pts|
    requires forall k :: 0 <= k < |cts| ==> OpensTo(lib, s, i + k, cts[k], pts[k])
    ensures AllOpen(lib, s, i, cts, pts)
    decreases |cts|
  {
    if cts != [] {
      assert OpensTo(lib, s, i + 0, cts[0], pts[0]);
      forall k | 0 <= k < |cts[1..]|
        ensures OpensTo(lib, s, i + 1 + k, cts[1..][k], pts[1..][k])
      {
        assert OpensTo(lib, s, i + (k + 1), cts[k + 1], pts[k + 1]);
      }
      AllOpenFrom(lib, s, i + 1, cts[1..], pts[1..]);
    }
  }

  /** Under exact AEAD the ciphertexts that open are the sealings of their plaintexts. */
  lemma {:induction false} AllOpenIsSealed(lib: Library, s: Session, i: nat, cts: seq<Data>, pts: seq<Data>)
    requires ExactAead(lib) && |cts| == |pts|
    ensures AllOpen(lib, s, i, cts, pts) <==> cts == SealFrom(lib, s, i, pts)
    decreases |cts|
  {
    if cts != [] {
      AllOpenIsSealed(lib, s, i + 1, cts[1..], pts[1..]);
      assert cts == [cts[0]] + cts[1..];
      var sealed := SealFrom(lib, s, i, pts);
      assert sealed[0] == SealChunk(lib, s, i, pts[0]) && sealed[1..] == SealFrom(lib, s, i + 1, pts[1..]);
      assert OpensTo(lib, s, i, cts[0], pts[0]) <==> cts[0] == SealChunk(lib, s, i, pts[0]);
    }
  }

  /** A successful read consumed exactly the frames it read, one per chunk, each of which opened. */
  lemma {:induction false} ReadBack(lib: Library, s: Session, i: nat, stream: Data)
    requires i <= s.total && OpenChunks(lib, s, i, stream).Ok?
    ensures
      var cts, pts := ReadFrames(lib, s, i, stream), ReadChunks(lib, s, i, stream);
      && |cts| == s.total - i
      && AllOpen(lib, s, i, cts, pts)
      && Framable(cts)
      && stream == Frames(cts) + OpenChunks(lib, s, i, stream).value.rest
      && OpenChunks(lib, s, i, stream).value.plaintext == Concat(pts)
    decreases s.total - i
  {
    if i < s.total {
      var end := 4 + Value(stream[..4]);
      ReadBack(lib, s, i + 1, stream[end..]);
      var tail := ReadFrames(lib, s, i + 1, stream[end..]);
      FrameOfPrefix(stream, end);
      FramesCons(stream[4..end], tail, stream, end, OpenChunks(lib, s, i, stream).value.rest);
      AllOpenCons(lib, s, i, ReadFrames(lib, s, i, stream), ReadChunks(lib, s, i, stream));
    }
  }

  lemma AllOpenCons(lib: Library, s: Session, i: nat, cts: seq<Data>, pts: seq<Data>)
    requires |cts| == |pts| > 0
    requires OpensTo(lib, s, i, cts[0], pts[0]) && AllOpen(lib, s, i + 1, cts[1..], pts[1..])
    ensures AllOpen(lib, s, i, cts, pts) && Concat(pts) == pts[0] + Concat(pts[1..])
  {
  }

  lemma Reassociate(a: Data, b: Data, c: Data)
    ensures (a + b) + c == a + (b + c)
  {
  }

  lemma FramesCons(ct: Data, tail: seq<Data>, stream: Data, end: nat, rest: Data)
    requires |ct| < Pow256(4) && Framable(tail) && end <= |stream|
    requires Frame(ct) == stream[..end] && stream[end..] == Frames(tail) + rest
    ensures Framable([ct] + tail) && stream == Frames([ct] + tail) + rest
  {
    FramesOfCons(ct, tail);
    Reassociate(Frame(ct), Frames(tail), rest);
    assert stream == stream[..end] + stream[end..];
  }

  lemma FramesOfCons(ct: Data, tail: seq<Data>)
    requires |ct| < Pow256(4) && Framable(tail)
    ensures Framable([ct] + tail) && Frames([ct] + tail) == Frame(ct) + Frames(tail)
  {
    assert ([ct] + tail)[1..] == tail && ([ct] + tail)[0] == ct;
  }

  /** The length prefix the decoder read is the one the encoder writes. */
  lemma FrameOfPrefix(stream: Data, end: nat)
    requires |stream| >= 4 && end == 4 + Value(stream[..4]) <= |stream|
    ensures |stream[4..end]| < Pow256(4) && Frame(stream[4..end]) == stream[..end]
  {
    ValueBound(stream[..4]);
    ValueInjective(BigEndian(end - 4, PREFIX_BYTES), stream[..4]);
    assert stream[..end] == stream[..4] + stream[4..end];
  }

  /** Reading a frame back: length prefix, payload and the remaining bytes. */
  lemma FrameParts(payload: Data, rest: Data)
    requires |payload| < Pow256(4)
    ensures
      var stream := Frame(payload) + rest;
      && |stream| == 4 + |payload| + |rest|
      && Value(stream[..4]) == |payload|
      && stream[4..4 + |payload|] == payload
      && stream[4 + |payload|..] == rest
  {
    var stream := Frame(payload) + rest;
    assert stream[..4] == BigEndian(|payload|, PREFIX_BYTES);
  }

  lemma {:induction false} WireLengthIs(payloads: seq<Data>)
    requires Framable(payloads)
    ensures |Frames(payloads)| == WireLength(payloads)
  {
    if payloads != [] {
      WireLengthIs(payloads[1..]);
    }
  }

  /** The converse of ReadBack: frames that open, followed by anything, are read in full. */
  lemma {:induction false} OpensInOrder(lib: Library, s: Session, i: nat, cts: seq<Data>, pts: seq<Data>, rest: Data)
    requires i <= s.total && |cts| == s.total - i && Framable(cts)
    requires AllOpen(lib, s, i, cts, pts)
    ensures OpenChunks(lib, s, i, Frames(cts) + rest) == Ok(Opened(Concat(pts), rest))
    decreases s.total - i
  {
    if i < s.total {
      var more := Frames(cts[1..]) + rest;
      Reassociate(Frame(cts[0]), Frames(cts[1..]), rest);
      FrameParts(cts[0], more);
      OpensInOrder(lib, s, i + 1, cts[1..], pts[1..], rest);
      OpenFirst(lib, s, i, Frame(cts[0]) + more, cts[0], pts[0], more);
    } else {
      assert Frames(cts) + rest == rest;
    }
  }

  /** One round of the chunk loop. */
  lemma OpenFirst(lib: Library, s: Session, i: nat, stream: Data, ct: Data, pt: Data, more: Data)
    requires i < s.total && |stream| == 4 + |ct| + |more|
    requires Value(stream[..4]) == |ct| && stream[4..4 + |ct|] == ct && stream[4 + |ct|..] == more
    requires OpensTo(lib, s, i, ct, pt)
    ensures OpenChunks(lib, s, i, stream) == Prepend(pt, OpenChunks(lib, s, i + 1, more))
  {
  }

  // ---------------------------------------------------------------- the header frame

  lemma HeaderReadBack(lib: Library, stream: Data)
    requires ReadHeader(lib, stream).Ok?
    ensures
      var hb := HeaderBytes(stream);
      && stream == Frame(hb) + ReadHeader(lib, stream).value.body
      && lib.parse(hb) == Some(ReadHeader(lib, stream).value.header)
      && 0 < |hb| <= MAX_HEADER_BYTES
  {
    var end := 4 + Value(stream[..4]);
    FrameOfPrefix(stream, end);
    assert stream == stream[..end] + stream[end..];
  }

  function HeaderBytes(stream: Data): Data
    requires |stream| >= 4 && |stream| >= 4 + Value(stream[..4])
  {
    stream[4..4 + Value(stream[..4])]
  }

  lemma HeaderReads(lib: Library, hb: Data, body: Data)
    requires 0 < |hb| <= MAX_HEADER_BYTES && lib.parse(hb).Some?
    ensures ReadHeader(lib, Frame(hb) + body) == Ok(Frame0(lib.parse(hb).value, body))
  {
    assert MAX_HEADER_BYTES < Pow256(4);
    FrameParts(hb, body);
  }

  // ---------------------------------------------------------------- main results

  /** What the decoder asks of a header, and the session it then begins: at most 16384 chunks and at
      least one, a file id, fields that decode, a 12-byte base IV, and a wrapped 32-byte key. */
  ghost predicate Admissible(lib: Library, enclavePub: Data, browserPub: Data, h: Header, s: Session) {
    && 0 < h.totalChunks <= 16384 && h.fileId != []
    && h.enc.Some? && h.wrappedKey.Some? && h.baseIV.Some? && |h.baseIV.value| == 12
    && |s.key| == 32
    && lib.unwrap(h.enc.value, ContextInfo(lib, enclavePub, browserPub), h.wrappedKey.value) == Some(s.key)
    && s.iv == h.baseIV.value && s.total == h.totalChunks && s.fileId == h.fileId
  }

  lemma AdmitsIff(lib: Library, enclavePub: Data, browserPub: Data, h: Header, s: Session)
    ensures Admit(lib, enclavePub, browserPub, h) == Ok(s) <==> Admissible(lib, enclavePub, browserPub, h, s)
  {
  }

  /** An upload a browser may send: a header that can be admitted under session s, whose hash
      commitment is empty or right, and one frame per announced chunk. */
  ghost predicate Upload(
    lib: Library, enclavePub: Data, browserPub: Data, hb: Data, s: Session, cts: seq<Data>, pts: seq<Data>)
  {
    && |browserPub| == 32
    && 0 < |hb| <= 8192 && lib.parse(hb).Some?
    && Admissible(lib, enclavePub, browserPub, lib.parse(hb).value, s)
    && |cts| == |pts| == s.total && Framable(cts)
    && DigestFits(lib, lib.parse(hb).value.plaintextSha256, Concat(pts))
  }

  ghost predicate DigestFits(lib: Library, expected: Data, plaintext: Data) {
    expected != [] ==> expected == lib.sha256Hex(plaintext)
  }

  /** Decoding a stream whose header is admitted comes down to its frames. */
  lemma AdmittedStreamReads(
    lib: Library, enclavePub: Data, browserPub: Data, hb: Data, s: Session, cts: seq<Data>, trailing: Data)
    requires |browserPub| == 32 && 0 < |hb| <= MAX_HEADER_BYTES && lib.parse(hb).Some? && Framable(cts)
    requires Admit(lib, enclavePub, browserPub, lib.parse(hb).value) == Ok(s)
    ensures Decode(lib, enclavePub, Decoded(browserPub), EncodeStream(hb, cts) + trailing)
         == CheckDigest(lib, lib.parse(hb).value.plaintextSha256, OpenChunks(lib, s, 0, Frames(cts) + trailing))
  {
    assert EncodeStream(hb, cts) + trailing == Frame(hb) + (Frames(cts) + trailing);
    HeaderReads(lib, hb, Frames(cts) + trailing);
  }

  /** An upload whose frames open is accepted, with its plaintext, wherever the stream goes on. */
  lemma UploadAccepted(
    lib: Library, enclavePub: Data, browserPub: Data, hb: Data, s: Session, cts: seq<Data>, pts: seq<Data>,
    trailing: Data)
    requires Upload(lib, enclavePub, browserPub, hb, s, cts, pts) && AllOpen(lib, s, 0, cts, pts)
    ensures Decode(lib, enclavePub, Decoded(browserPub), EncodeStream(hb, cts) + trailing)
         == Ok(Opened(Concat(pts), trailing))
  {
    AdmitsIff(lib, enclavePub, browserPub, lib.parse(hb).value, s);
    AdmittedStreamReads(lib, enclavePub, browserPub, hb, s, cts, trailing);
    OpensInOrder(lib, s, 0, cts, pts, trailing);
  }

  /** What acceptance says of the stages of decoding. */
  lemma AcceptedStages(lib: Library, enclavePub: Data, browser: BrowserKey, stream: Data)
    requires Decode(lib, enclavePub, browser, stream).Ok?
    ensures browser.Decoded? && |browser.bytes| == 32 && ReadHeader(lib, stream).Ok?
    ensures
      var f := ReadHeader(lib, stream).value;
      var s := Admit(lib, enclavePub, browser.bytes, f.header);
      && s.Ok? && OpenChunks(lib, s.value, 0, f.body).Ok?
      && Decode(lib, enclavePub, browser, stream) == OpenChunks(lib, s.value, 0, f.body)
      && DigestFits(lib, f.header.plaintextSha256, OpenChunks(lib, s.value, 0, f.body).value.plaintext)
  {
  }

  lemma EncodedAnd(hb: Data, cts: seq<Data>, rest: Data)
    requires |hb| <= MAX_HEADER_BYTES && Framable(cts)
    ensures |hb| < Pow256(4)
    ensures EncodeStream(hb, cts) + rest == Frame(hb) + (Frames(cts) + rest)
  {
    assert MAX_HEADER_BYTES < Pow256(4);
  }

  /** Conversely an accepted stream is such an upload followed by the unread rest. */
  lemma AcceptedIsUpload(lib: Library, enclavePub: Data, browser: BrowserKey, stream: Data)
    returns (s: Session, cts: seq<Data>, pts: seq<Data>)
    requires Decode(lib, enclavePub, browser, stream).Ok?
    ensures
      var r := Decode(lib, enclavePub, browser, stream).value;
      && browser.Decoded? && ReadHeader(lib, stream).Ok?
      && Admit(lib, enclavePub, browser.bytes, ReadHeader(lib, stream).value.header) == Ok(s)
      && Upload(lib, enclavePub, browser.bytes, HeaderBytes(stream), s, cts, pts)
      && AllOpen(lib, s, 0, cts, pts)
      && r.plaintext == Concat(pts)
      && stream == EncodeStream(HeaderBytes(stream), cts) + r.rest
  {
    AcceptedStages(lib, enclavePub, browser, stream);
    var f := ReadHeader(lib, stream).value;
    s := Admit(lib, enclavePub, browser.bytes, f.header).value;
    AdmitsIff(lib, enclavePub, browser.bytes, f.header, s);
    HeaderReadBack(lib, stream);
    ReadBack(lib, s, 0, f.body);
    cts, pts := ReadFrames(lib, s, 0, f.body), ReadChunks(lib, s, 0, f.body);
    EncodedAnd(HeaderBytes(stream), cts, OpenChunks(lib, s, 0, f.body).value.rest);
  }

  /** Round trip: decoding the reference encoding of any chunks returns their concatenation,
      consumes exactly the encoding, and leaves whatever follows it. */
  lemma RoundTrip(
    lib: Library, enclavePub: Data, browserPub: Data, hb: Data, s: Session, chunks: seq<Data>, trailing: Data)
    requires ExactAead(lib)
    requires Upload(lib, enclavePub, browserPub, hb, s, SealFrom(lib, s, 0, chunks), chunks)
    ensures
      var cts := SealFrom(lib, s, 0, chunks);
      var wire := EncodeStream(hb, cts);
      && Decode(lib, enclavePub, Decoded(browserPub), wire + trailing) == Ok(Opened(Concat(chunks), trailing))
      && |wire| == 4 + |hb| + WireLength(cts)
  {
    var cts := SealFrom(lib, s, 0, chunks);
    AllOpenIsSealed(lib, s, 0, cts, chunks);
    UploadAccepted(lib, enclavePub, browserPub, hb, s, cts, chunks, trailing);
    WireLengthIs(cts);
  }

  /** Decoding a stream succeeds with r: the plaintext and the bytes left unread. */
  ghost predicate Accepts(lib: Library, enclavePub: Data, browser: BrowserKey, stream: Data, r: Opened) {
    Decode(lib, enclavePub, browser, stream) == Ok(r)
  }

  /** Canonical acceptance: if a stream is accepted, what was consumed is the reference encoding
      of the returned plaintext's chunks under the session its header announces. */
  lemma CanonicalAcceptance(lib: Library, enclavePub: Data, browser: BrowserKey, stream: Data, r: Opened)
    returns (hb: Data, s: Session, chunks: seq<Data>)
    requires ExactAead(lib)
    requires Accepts(lib, enclavePub, browser, stream, r)
    ensures browser.Decoded?
    ensures Upload(lib, enclavePub, browser.bytes, hb, s, SealFrom(lib, s, 0, chunks), chunks)
    ensures r.plaintext == Concat(chunks)
    ensures stream == EncodeStream(hb, SealFrom(lib, s, 0, chunks)) + r.rest
  {
    var cts;
    s, cts, chunks := AcceptedIsUpload(lib, enclavePub, browser, stream);
    hb := HeaderBytes(stream);
    AllOpenIsSealed(lib, s, 0, cts, chunks);
  }

  /** Bytes after an accepted upload never change the result. */
  lemma TrailingBytesIgnored(lib: Library, enclavePub: Data, browser: BrowserKey, stream: Data, r: Opened, more: Data)
    requires Accepts(lib, enclavePub, browser, stream, r)
    ensures Accepts(lib, enclavePub, browser, stream + more, Opened(r.plaintext, r.rest + more))
  {
    var s, cts, pts := AcceptedIsUpload(lib, enclavePub, browser, stream);
    Reassociate(EncodeStream(HeaderBytes(stream), cts), r.rest, more);
    UploadAccepted(lib, enclavePub, browser.bytes, HeaderBytes(stream), s, cts, pts, r.rest + more);
  }

  /** No strict prefix of the consumed bytes is accepted. */
  lemma NoStrictPrefixAccepted(
    lib: Library, enclavePub: Data, browser: BrowserKey, stream: Data, r: Opened, cut: nat, early: Opened)
    requires Accepts(lib, enclavePub, browser, stream, r)
    requires cut < |stream| - |r.rest|
    ensures !Accepts(lib, enclavePub, browser, stream[..cut], early)
  {
    assert stream[..cut] + stream[cut..] == stream;
    if Accepts(lib, enclavePub, browser, stream[..cut], early) {
      TrailingBytesIgnored(lib, enclavePub, browser, stream[..cut], early, stream[cut..]);
    }
  }

  /** An ideal AEAD for one key: only what the session's sender sealed under it opens. */
  ghost predicate IdealAead(lib: Library, s: Session, cts: seq<Data>, pts: seq<Data>)
  {
    && |cts| == |pts| == s.total
    && forall n, a, c, p ::
         lib.open(s.key, n, a, c) == Some(p)
         <==> exists i :: 0 <= i < s.total && SentAs(s, i, cts[i], pts[i], n, a, c, p)
  }

  ghost predicate SentAs(s: Session, i: nat, ct: Data, pt: Data, n: Data, a: Data, c: Data, p: Data) {
    n == NonceAt(s.iv, i) && a == Aad(i, s.total, s.fileId) && c == ct && p == pt
  }

  /** What opens at position k of any session using the sender's key is the sender's chunk k,
      in a session that agrees on chunk count, file id and nonce. */
  lemma OnlyTheSendersChunk(
    lib: Library, sent: Session, cts: seq<Data>, pts: seq<Data>, s: Session, k: nat, c: Data, p: Data)
    requires IdealAead(lib, sent, cts, pts) && s.key == sent.key
    requires OpensTo(lib, s, k, c, p)
    ensures k < sent.total && s.total == sent.total && s.fileId == sent.fileId
    ensures NonceAt(s.iv, k) == NonceAt(sent.iv, k) && c == cts[k] && p == pts[k]
  {
    var n, a := NonceAt(s.iv, k), Aad(k, s.total, s.fileId);
    assert lib.open(sent.key, n, a, c) == Some(p);
    var i :| 0 <= i < sent.total && SentAs(sent, i, cts[i], pts[i], n, a, c, p);
    AadInjective(k, s.total, s.fileId, i, sent.total, sent.fileId);
  }

  /** The session a stream's header announces and its wrapped key unwraps to. */
  function Announced(lib: Library, enclavePub: Data, browser: BrowserKey, stream: Data): Option<Session> {
    if !browser.Decoded? || ReadHeader(lib, stream).Err? then None
    else
      var s := Admit(lib, enclavePub, browser.bytes, ReadHeader(lib, stream).value.header);
      if s.Ok? then Some(s.value) else None
  }

  /** Integrity: under an ideal AEAD, a stream whose (unauthenticated) header unwraps to the
      sender's key is accepted only if its header announces the sender's base IV, chunk count and
      file id, and its frames are the sender's frames, all of them and in order. */
  lemma OnlyTheSendersFrames(
    lib: Library, enclavePub: Data, browser: BrowserKey, sent: Session, cts: seq<Data>, pts: seq<Data>,
    stream: Data, r: Opened)
    returns (hb: Data)
    requires IdealAead(lib, sent, cts, pts)
    requires Accepts(lib, enclavePub, browser, stream, r)
    requires Announced(lib, enclavePub, browser, stream).Some?
    requires Announced(lib, enclavePub, browser, stream).value.key == sent.key
    ensures Announced(lib, enclavePub, browser, stream) == Some(sent)
    ensures r.plaintext == Concat(pts)
    ensures |hb| <= MAX_HEADER_BYTES && Framable(cts)
    ensures |stream| >= 4 + |hb| && |hb| == Value(stream[..4]) && hb == stream[4..4 + |hb|]
    ensures stream == EncodeStream(hb, cts) + r.rest
  {
    var s, cts', pts' := AcceptedIsUpload(lib, enclavePub, browser, stream);
    SessionIsTheSenders(lib, sent, cts, pts, s, cts', pts');
    hb := HeaderBytes(stream);
  }

  lemma SessionIsTheSenders(
    lib: Library, sent: Session, cts: seq<Data>, pts: seq<Data>, s: Session, cts': seq<Data>, pts': seq<Data>)
    requires IdealAead(lib, sent, cts, pts) && s.key == sent.key
    requires |cts'| == s.total > 0 && AllOpen(lib, s, 0, cts', pts')
    ensures s == sent && cts' == cts && pts' == pts
  {
    forall k | 0 <= k < s.total
      ensures k < sent.total && s.total == sent.total && s.fileId == sent.fileId
      ensures NonceAt(s.iv, k) == NonceAt(sent.iv, k) && cts'[k] == cts[k] && pts'[k] == pts[k]
    {
      AllOpenAt(lib, s, 0, cts', pts', k);
      OnlyTheSendersChunk(lib, sent, cts, pts, s, k, cts'[k], pts'[k]);
    }
    assert NonceAt(s.iv, 0) == NonceAt(sent.iv, 0);
    NonceZero(s.iv);
    NonceZero(sent.iv);
  }

  /** Editing the frame list of an upload (swapping, dropping, duplicating, replacing, appending
      frames) keeps it acceptable exactly when the sender's frames are still a prefix of it. */
  lemma EditedFramesAccepted(
    lib: Library, enclavePub: Data, browserPub: Data, hb: Data, s: Session,
    cts: seq<Data>, pts: seq<Data>, edited: seq<Data>)
    requires IdealAead(lib, s, cts, pts)
    requires Upload(lib, enclavePub, browserPub, hb, s, cts, pts)
    requires Framable(edited)
    ensures Decode(lib, enclavePub, Decoded(browserPub), EncodeStream(hb, edited)).Ok? <==> cts <= edited
  {
    if cts <= edited {
      SentFramesOpen(lib, s, cts, pts);
      StreamSplit(hb, edited, |cts|);
      assert edited[..|cts|] == cts;
      UploadAccepted(lib, enclavePub, browserPub, hb, s, cts, pts, Frames(edited[|cts|..]));
    }
    if Decode(lib, enclavePub, Decoded(browserPub), EncodeStream(hb, edited)).Ok? {
      AcceptedFramesStartWithSent(lib, enclavePub, browserPub, hb, s, cts, pts, edited);
    }
  }

  lemma AcceptedFramesStartWithSent(
    lib: Library, enclavePub: Data, browserPub: Data, hb: Data, s: Session,
    cts: seq<Data>, pts: seq<Data>, edited: seq<Data>)
    requires IdealAead(lib, s, cts, pts)
    requires Upload(lib, enclavePub, browserPub, hb, s, cts, pts)
    requires Framable(edited)
    requires Decode(lib, enclavePub, Decoded(browserPub), EncodeStream(hb, edited)).Ok?
    ensures cts <= edited
  {
    var stream := EncodeStream(hb, edited);
    var r := Decode(lib, enclavePub, Decoded(browserPub), stream).value;
    AdmitsIff(lib, enclavePub, browserPub, lib.parse(hb).value, s);
    EncodedHeaderIs(lib, enclavePub, browserPub, hb, s, edited);
    var read := OnlyTheSendersFrames(lib, enclavePub, Decoded(browserPub), s, cts, pts, stream, r);
    FrameCancels(hb, Frames(edited), cts, r.rest);
    FramesPrefix(cts, edited, r.rest);
  }

  /** The header of an encoded stream reads back, whatever frames follow. */
  lemma EncodedHeaderIs(lib: Library, enclavePub: Data, browserPub: Data, hb: Data, s: Session, payloads: seq<Data>)
    requires 0 < |hb| <= MAX_HEADER_BYTES && lib.parse(hb).Some? && Framable(payloads)
    requires Admit(lib, enclavePub, browserPub, lib.parse(hb).value) == Ok(s)
    ensures
      var stream := EncodeStream(hb, payloads);
      && Announced(lib, enclavePub, Decoded(browserPub), stream) == Some(s)
      && |stream| >= 4 + |hb| && Value(stream[..4]) == |hb| && stream[4..4 + |hb|] == hb
  {
    HeaderReads(lib, hb, Frames(payloads));
    FrameParts(hb, Frames(payloads));
  }

  lemma FrameCancels(hb: Data, body: Data, cts: seq<Data>, rest: Data)
    requires |hb| <= MAX_HEADER_BYTES && Framable(cts)
    requires Frame(hb) + body == EncodeStream(hb, cts) + rest
    ensures body == Frames(cts) + rest
  {
    var stream := Frame(hb) + body;
    assert stream == Frame(hb) + (Frames(cts) + rest);
    assert body == stream[|Frame(hb)|..];
  }

  lemma SentFramesOpen(lib: Library, s: Session, cts: seq<Data>, pts: seq<Data>)
    requires IdealAead(lib, s, cts, pts)
    ensures AllOpen(lib, s, 0, cts, pts)
  {
    forall k | 0 <= k < |cts|
      ensures OpensTo(lib, s, 0 + k, cts[k], pts[k])
    {
      assert SentAs(s, k, cts[k], pts[k], NonceAt(s.iv, k), Aad(k, s.total, s.fileId), cts[k], pts[k]);
    }
    AllOpenFrom(lib, s, 0, cts, pts);
  }

  lemma StreamSplit(hb: Data, payloads: seq<Data>, n: nat)
    requires |hb| <= MAX_HEADER_BYTES && Framable(payloads) && n <= |payloads|
    ensures EncodeStream(hb, payloads) == EncodeStream(hb, payloads[..n]) + Frames(payloads[n..])
  {
    FramesSplit(payloads, n);
  }

  lemma {:induction false} FramesSplit(payloads: seq<Data>, n: nat)
    requires Framable(payloads) && n <= |payloads|
    ensures Frames(payloads) == Frames(payloads[..n]) + Frames(payloads[n..])
  {
    if n == 0 {
      assert payloads[0..] == payloads && payloads[..0] == [];
    } else {
      FramesSplit(payloads[1..], n - 1);
      assert payloads[..n][1..] == payloads[1..][..n - 1];
      assert payloads[n..] == payloads[1..][n - 1..];
    }
  }

  /** Framing is prefix-free: equal bytes mean equal frames. */
  lemma {:induction false} FramesPrefix(cts: seq<Data>, fs: seq<Data>, rest: Data)
    requires Framable(cts) && Framable(fs)
    requires Frames(fs) == Frames(cts) + rest
    ensures cts <= fs
  {
    if cts != [] {
      Reassociate(Frame(cts[0]), Frames(cts[1..]), rest);
      FrameCons(cts[0], Frames(cts[1..]) + rest, fs);
      FramesPrefix(cts[1..], fs[1..], rest);
      assert cts == [cts[0]] + cts[1..] && fs == [fs[0]] + fs[1..];
    }
  }

  /** Bytes that begin with a frame are frames that begin with it. */
  lemma FrameCons(ct: Data, more: Data, fs: seq<Data>)
    requires |ct| < Pow256(4) && Framable(fs) && Frames(fs) == Frame(ct) + more
    ensures fs != [] && fs[0] == ct && Frames(fs[1..]) == more
  {
    FrameParts(ct, more);
    assert fs != [];
    FrameParts(fs[0], Frames(fs[1..]));
  }

  // ---------------------------------------------------------------- hpke.ContextInfo

  /** With 32-byte hashes the info string (RFC 9180 section 5.1) is the 12 characters of "ratls-cs-v1|",
      the hash of the enclave's key and the hash of the browser's, 76 bytes in all; and equal strings
      mean equal hashes of both public keys. */
  lemma ContextInfoBindsBothKeys(lib: Library, e: Data, b: Data, e': Data, b': Data)
    requires |lib.sha256(e)| == |lib.sha256(b)| == |lib.sha256(e')| == |lib.sha256(b')| == 32
    ensures
      var info := ContextInfo(lib, e, b);
      && |info| == 76 && info[12..44] == lib.sha256(e) && info[44..76] == lib.sha256(b)
      && info[..12] == seq(12, k requires 0 <= k < 12 => "ratls-cs-v1|"[k] as int)
    ensures ContextInfo(lib, e, b) == ContextInfo(lib, e', b') <==>
      lib.sha256(e) == lib.sha256(e') && lib.sha256(b) == lib.sha256(b')
  {
    var x, y := ContextInfo(lib, e, b), ContextInfo(lib, e', b');
    assert x[12..44] == lib.sha256(e) && x[44..] == lib.sha256(b);
    assert y[12..44] == lib.sha256(e') && y[44..] == lib.sha256(b');
  }

  // ---------------------------------------------------------------- the assumptions have models

  lemma ExactAeadHasModel(base: Library)
    ensures exists lib: Library :: ExactAead(lib) && lib.parse == base.parse && lib.unwrap == base.unwrap
  {
    var lib := base.(
      seal := (k: Data, n: Data, a: Data, p: Data) => p,
      open := (k: Data, n: Data, a: Data, c: Data) => Some(c));
    assert ExactAead(lib);
  }

  ghost function SenderOpens(s: Session, cts: seq<Data>, pts: seq<Data>, k: Data, n: Data, a: Data, c: Data)
    : Option<Data>
    requires |cts| == |pts| == s.total
  {
    if k == s.key && exists i :: 0 <= i < s.total && SentAs(s, i, cts[i], pts[i], n, a, c, pts[i]) then
      var i :| 0 <= i < s.total && SentAs(s, i, cts[i], pts[i], n, a, c, pts[i]);
      Some(pts[i])
    else
      None
  }

  /** Associated data keeps the chunks of a session apart, so an ideal AEAD for it exists. */
  lemma IdealAeadHasModel(base: Library, s: Session, cts: seq<Data>, pts: seq<Data>)
    requires |cts| == |pts| == s.total
    ensures exists lib: Library :: IdealAead(lib, s, cts, pts) && lib.parse == base.parse && lib.unwrap == base.unwrap
  {
    var lib := base.(open := (k: Data, n: Data, a: Data, c: Data) => SenderOpens(s, cts, pts, k, n, a, c));
    forall n, a, c, p
      ensures lib.open(s.key, n, a, c) == Some(p)
         <==> exists i :: 0 <= i < s.total && SentAs(s, i, cts[i], pts[i], n, a, c, p)
    {
      forall i, j | 0 <= i < s.total && 0 <= j < s.total
        && SentAs(s, i, cts[i], pts[i], n, a, c, pts[i]) && SentAs(s, j, cts[j], pts[j], n, a, c, pts[j])
        ensures i == j
      {
        AadInjective(i, s.total, s.fileId, j, s.total, s.fileId);
      }
    }
    assert IdealAead(lib, s, cts, pts);
  }
}
