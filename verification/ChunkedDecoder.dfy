/** The decoder as the server runs it: a consumed request body, a nonce incremented in place and
    an assembly buffer, proved to compute ChunkedFormat.Decode. */
module ChunkedDecoder {
  import opened Wrappers
  import opened Bytes
  import opened ChunkedFormat
  import ChunkedProofs

  /** The request body: an io.Reader over bytes that are all there. */
  class Body {
    var rest: Data

    constructor (bytes: Data)
      ensures rest == bytes
    {
      rest := bytes;
    }

    /** io.ReadFull and binary.Read: n bytes, or an error once the body is exhausted. */
    method ReadFull(n: nat) returns (r: Option<Data>)
      modifies this
      ensures r.Some? <==> n <= |old(rest)|
      ensures r.Some? ==> r.value == old(rest)[..n] && rest == old(rest)[n..]
      ensures r.None? ==> rest == []
    {
      if |rest| < n {
        rest := [];
        return None;
      }
      r := Some(rest[..n]);
      rest := rest[n..];
    }
  }

  /** What one increment does: the bytes after position j wrap, the byte at j is bumped (there is
      none if all wrap), and the bytes before stay. */
  lemma {:induction false} IncrementIs(s: Data, t: Data, j: int)
    requires |s| == |t| && -1 <= j < |s|
    requires forall k :: j < k < |s| ==> s[k] == 255 && t[k] == 0
    requires j >= 0 ==> s[j] != 255 && t[j] == s[j] + 1
    requires forall k :: 0 <= k < j ==> t[k] == s[k]
    ensures Increment(s) == t
    decreases |s|
  {
    var last := |s| - 1;
    if s != [] {
      assert t == t[..last] + [t[last]];
      if j < last {
        IncrementIs(s[..last], t[..last], j);
      }
    }
  }

  /** Adds one to a big-endian counter in place: bump from the last byte until one does not wrap. */
  method IncrementNonce(nonce: array<byte>)
    modifies nonce
    ensures nonce[..] == Increment(old(nonce[..]))
  {
    ghost var was := nonce[..];
    var j := nonce.Length - 1;
    while j >= 0
      invariant -1 <= j < nonce.Length
      invariant forall k :: 0 <= k <= j ==> nonce[k] == was[k]
      invariant forall k :: j < k < nonce.Length ==> was[k] == 255 && nonce[k] == 0
    {
      nonce[j] := if nonce[j] == 255 then 0 else nonce[j] + 1;
      if nonce[j] != 0 {
        break;
      }
      j := j - 1;
    }
    IncrementIs(was, nonce[..], j);
  }

  method DecryptChunkedUpload(lib: Library, enclavePub: Data, browser: BrowserKey, body: Body)
    returns (r: Result<Data, DecodeError>)
    modifies body
    ensures
      var spec := Decode(lib, enclavePub, browser, old(body.rest));
      if spec.Ok? then r == Ok(spec.value.plaintext) && body.rest == spec.value.rest
      else r == Err(spec.error)
  {
    if browser.Missing? {
      return Err(MissingBrowserKey);
    }
    if browser.Undecodable? || |browser.bytes| != 32 {
      return Err(BadBrowserKey);
    }
    var lengthBytes := body.ReadFull(4);
    if lengthBytes.None? {
      return Err(HeaderLengthUnreadable);
    }
    var headerLen := Value(lengthBytes.value);
    if headerLen == 0 || headerLen > MAX_HEADER_BYTES {
      return Err(BadHeaderLength);
    }
    var headerBytes := body.ReadFull(headerLen);
    if headerBytes.None? {
      return Err(HeaderUnreadable);
    }
    assert headerBytes.value == old(body.rest)[4..4 + headerLen];
    assert body.rest == old(body.rest)[4 + headerLen..];
    var header := lib.parse(headerBytes.value);
    if header.None? {
      return Err(HeaderUnparsable);
    }
    var session := Admit(lib, enclavePub, browser.bytes, header.value);
    if session.Err? {
      return Err(session.error);
    }
    var assembled := OpenAll(lib, session.value, body);
    if assembled.Err? {
      return Err(assembled.error);
    }
    var commitment := header.value.plaintextSha256;
    if commitment != [] && lib.sha256Hex(assembled.value) != commitment {
      return Err(DigestMismatch);
    }
    return assembled;
  }

  /** The chunk loop. */
  method OpenAll(lib: Library, s: Session, body: Body) returns (r: Result<Data, DecodeError>)
    requires s.iv != []
    modifies body
    ensures
      var spec := OpenChunks(lib, s, 0, old(body.rest));
      if spec.Ok? then r == Ok(spec.value.plaintext) && body.rest == spec.value.rest
      else r == Err(spec.error)
  {
    var nonce := new byte[|s.iv|](k requires 0 <= k < |s.iv| => s.iv[k]);
    assert nonce[..] == s.iv;
    var assembled: Data := [];
    var i := 0;
    ChunkedProofs.NonceZero(s.iv);
    ghost var whole := OpenChunks(lib, s, 0, body.rest);
    PrependNothing(whole);
    while i < s.total
      invariant 0 <= i <= s.total
      invariant nonce[..] == NonceAt(s.iv, i)
      invariant SoFar(lib, s, whole, assembled, i, body.rest)
    {
      var pt := OpenRound(lib, s, i, nonce, body, whole, assembled);
      if pt.Err? {
        return pt;
      }
      assembled := assembled + pt.value;
      i := i + 1;
    }
    NoneLeft(lib, s, i, assembled, body.rest);
    return Ok(assembled);
  }

  /** The chunks before i gave this plaintext, and the bytes left decide the rest of the outcome. */
  ghost predicate SoFar(
    lib: Library, s: Session, whole: Result<Opened, DecodeError>, assembled: Data, i: nat, rest: Data)
  {
    whole == Prepend(assembled, OpenChunks(lib, s, i, rest))
  }

  /** A round of the loop: open the next frame and move the nonce on. */
  method OpenRound(
    lib: Library, s: Session, i: nat, nonce: array<byte>, body: Body, ghost whole: Result<Opened, DecodeError>,
    ghost assembled: Data)
    returns (r: Result<Data, DecodeError>)
    requires s.iv != [] && i < s.total && nonce[..] == NonceAt(s.iv, i)
    requires SoFar(lib, s, whole, assembled, i, body.rest)
    modifies body, nonce
    ensures r.Err? ==> whole == Err(r.error)
    ensures r.Ok? ==>
      nonce[..] == NonceAt(s.iv, i + 1) && SoFar(lib, s, whole, assembled + r.value, i + 1, body.rest)
  {
    ghost var here := OpenChunks(lib, s, i, body.rest);
    r := OpenNext(lib, s, i, nonce, body);
    if r.Ok? {
      PrependOneMore(whole, assembled, here, r.value, OpenChunks(lib, s, i + 1, body.rest));
      ChunkedProofs.NonceStep(s.iv, i);
      IncrementNonce(nonce);
    }
  }

  /** One round of the loop: read a frame and open it under the current nonce. */
  method OpenNext(lib: Library, s: Session, i: nat, nonce: array<byte>, body: Body)
    returns (r: Result<Data, DecodeError>)
    requires i < s.total && nonce[..] == NonceAt(s.iv, i)
    modifies body
    ensures
      var spec := OpenChunks(lib, s, i, old(body.rest));
      if r.Ok? then spec == Prepend(r.value, OpenChunks(lib, s, i + 1, body.rest))
      else spec == Err(r.error)
  {
    ghost var stream := body.rest;
    var lengthBytes := body.ReadFull(4);
    if lengthBytes.None? {
      return Err(ChunkLengthUnreadable(i));
    }
    var ct := body.ReadFull(Value(lengthBytes.value));
    if ct.None? {
      return Err(ChunkUnreadable(i));
    }
    ghost var end := 4 + Value(stream[..4]);
    assert ct.value == stream[4..end] && body.rest == stream[end..];
    var pt := lib.open(s.key, nonce[..], Aad(i, s.total, s.fileId), ct.value);
    if pt.None? {
      return Err(ChunkUnauthentic(i));
    }
    return Ok(pt.value);
  }

  lemma PrependNothing(r: Result<Opened, DecodeError>)
    ensures Prepend([], r) == r
  {
    if r.Ok? {
      assert [] + r.value.plaintext == r.value.plaintext;
    }
  }

  lemma PrependOneMore(whole: Result<Opened, DecodeError>, a: Data, here: Result<Opened, DecodeError>, b: Data,
                       r: Result<Opened, DecodeError>)
    requires whole == Prepend(a, here) && here == Prepend(b, r)
    ensures whole == Prepend(a + b, r)
  {
    if r.Ok? {
      assert a + (b + r.value.plaintext) == (a + b) + r.value.plaintext;
    }
  }

  lemma NoneLeft(lib: Library, s: Session, i: nat, assembled: Data, rest: Data)
    requires i >= s.total
    ensures Prepend(assembled, OpenChunks(lib, s, i, rest)) == Ok(Opened(assembled, rest))
  {
    assert assembled + [] == assembled;
  }
}
