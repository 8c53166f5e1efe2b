/** The AES-256-GCM-CHUNKED-v1 stream: associated data, nonces, the reference encoder written
    from the wire format, and the decoder's meaning as a function of the bytes it is given. */
module ChunkedFormat {
  import opened Wrappers
  import opened Bytes

  const MAX_HEADER_BYTES: nat := 8192
  const MAX_TOTAL_CHUNKS: nat := 16384
  const AES_KEY_LEN: nat := 32
  const PREFIX_BYTES: nat := 4
  const COLON: byte := 58

  // ---------------------------------------------------------------- associated data

  /** fmt's %d for a non-negative number: ASCII digits, without leading zeros. */
  function Decimal(n: nat): (s: Data)
    ensures s != [] && (forall d <- s :: 48 <= d <= 57) && (s[0] == 48 ==> n == 0 && |s| == 1)
  {
    if n < 10 then [48 + n] else Decimal(n / 10) + [48 + n % 10]
  }

  function ParseDecimal(s: Data): int {
    if s == [] then 0 else 10 * ParseDecimal(s[..|s| - 1]) + s[|s| - 1] - 48
  }

  /** fmt.Sprintf("%d:%d:%s", i, total, fileId). */
  function Aad(i: nat, total: nat, fileId: Data): Data {
    Decimal(i) + [COLON] + Decimal(total) + [COLON] + fileId
  }

  // ---------------------------------------------------------------- nonces

  /** One in-place increment of a big-endian counter, carrying from the last byte. */
  function Increment(s: Data): (t: Data)
    ensures |t| == |s|
  {
    if s == [] then []
    else if s[|s| - 1] == 255 then Increment(s[..|s| - 1]) + [0]
    else s[..|s| - 1] + [s[|s| - 1] + 1]
  }

  /** baseIV + i in big-endian bytes, modulo 256^|baseIV| (2^96 for an admitted base IV). */
  function NonceAt(iv: Data, i: nat): (nonce: Data)
    ensures |nonce| == |iv| && Value(nonce) == (Value(iv) + i) % Pow256(|iv|)
  {
    BigEndian((Value(iv) + i) % Pow256(|iv|), |iv|)
  }

  // ---------------------------------------------------------------- library interface

  /** Frame 0 after JSON parsing; the base64 fields carry the outcome of their decoding. */
  datatype Header = Header(
    fileId: Data,
    enc: Option<Data>,
    wrappedKey: Option<Data>,
    baseIV: Option<Data>,
    totalChunks: int,
    plaintextSha256: Data)

  /** The library code the decoder calls: JSON parsing, HPKE unwrapping, AES-GCM and SHA-256. */
  datatype Library = Library(
    parse: Data -> Option<Header>,
    unwrap: (Data, Data, Data) -> Option<Data>,
    seal: (Data, Data, Data, Data) -> Data,
    open: (Data, Data, Data, Data) -> Option<Data>,
    sha256: Data -> Data,
    sha256Hex: Data -> Data)

  /** AES-GCM is deterministic: opening returns a plaintext exactly for its own sealing. */
  ghost predicate ExactAead(lib: Library) {
    forall k, n, a, c, p :: lib.open(k, n, a, c) == Some(p) <==> c == lib.seal(k, n, a, p)
  }

  // ---------------------------------------------------------------- hpke.ContextInfo

  /** "ratls-cs-v1|" */
  const INFO_PREFIX: Data := [114, 97, 116, 108, 115, 45, 99, 115, 45, 118, 49, 124]

  function ContextInfo(lib: Library, enclavePub: Data, browserPub: Data): Data {
    INFO_PREFIX + lib.sha256(enclavePub) + lib.sha256(browserPub)
  }

  // ---------------------------------------------------------------- decoding

  /** The X-RATLS-Browser-HPKE header: absent, not base64url, or decoded. */
  datatype BrowserKey = Missing | Undecodable | Decoded(bytes: Data)

  datatype DecodeError =
    | MissingBrowserKey
    | BadBrowserKey
    | HeaderLengthUnreadable
    | BadHeaderLength
    | HeaderUnreadable
    | HeaderUnparsable
    | BadTotalChunks
    | MissingFileId
    | BadEnc
    | BadWrappedKey
    | BadBaseIV
    | UnwrapFailed
    | BadKeyLength
    | ChunkLengthUnreadable(chunk: nat)
    | ChunkUnreadable(chunk: nat)
    | ChunkUnauthentic(chunk: nat)
    | DigestMismatch

  /** What the chunk loop needs from an accepted header. */
  datatype Session = Session(key: Data, iv: Data, total: nat, fileId: Data)

  datatype Opened = Opened(plaintext: Data, rest: Data)

  /** The checks between parsing the header and the first chunk, in the order they are made. */
  function Admit(lib: Library, enclavePub: Data, browserPub: Data, h: Header): (r: Result<Session, DecodeError>)
    ensures r.Ok? ==>
      && 0 < r.value.total <= MAX_TOTAL_CHUNKS
      && r.value.total == h.totalChunks
      && r.value.fileId == h.fileId != []
      && h.baseIV == Some(r.value.iv) && |r.value.iv| == 12
      && |r.value.key| == AES_KEY_LEN
  {
    if h.totalChunks <= 0 || h.totalChunks > MAX_TOTAL_CHUNKS then Err(BadTotalChunks)
    else if h.fileId == [] then Err(MissingFileId)
    else if h.enc.None? then Err(BadEnc)
    else if h.wrappedKey.None? then Err(BadWrappedKey)
    else if h.baseIV.None? || |h.baseIV.value| != 12 then Err(BadBaseIV)
    else
      var key := lib.unwrap(h.enc.value, ContextInfo(lib, enclavePub, browserPub), h.wrappedKey.value);
      if key.None? then Err(UnwrapFailed)
      else if |key.value| != AES_KEY_LEN then Err(BadKeyLength)
      else Ok(Session(key.value, h.baseIV.value, h.totalChunks, h.fileId))
  }

  /** Chunks i.. of a session, read from a stream. */
  function OpenChunks(lib: Library, s: Session, i: nat, stream: Data): Result<Opened, DecodeError>
    decreases s.total - i
  {
    if i >= s.total then Ok(Opened([], stream))
    else if |stream| < 4 then Err(ChunkLengthUnreadable(i))
    else if |stream| - 4 < Value(stream[..4]) then Err(ChunkUnreadable(i))
    else
      var end := 4 + Value(stream[..4]);
      var pt := lib.open(s.key, NonceAt(s.iv, i), Aad(i, s.total, s.fileId), stream[4..end]);
      if pt.None? then Err(ChunkUnauthentic(i))
      else Prepend(pt.value, OpenChunks(lib, s, i + 1, stream[end..]))
  }

  function Prepend(p: Data, r: Result<Opened, DecodeError>): Result<Opened, DecodeError> {
    if r.Ok? then Ok(Opened(p + r.value.plaintext, r.value.rest)) else r
  }

  /** The final SHA-256 check; an empty commitment is not checked. */
  function CheckDigest(lib: Library, expected: Data, r: Result<Opened, DecodeError>): Result<Opened, DecodeError> {
    if r.Ok? && expected != [] && lib.sha256Hex(r.value.plaintext) != expected then Err(DigestMismatch) else r
  }

  /** What a successful read of frame 0 yields. */
  datatype Frame0 = Frame0(header: Header, body: Data)

  function ReadHeader(lib: Library, stream: Data): (r: Result<Frame0, DecodeError>)
    ensures r.Ok? ==>
      && |stream| >= 4 && 0 < Value(stream[..4]) <= MAX_HEADER_BYTES
      && |stream| >= 4 + Value(stream[..4])
      && r.value.body == stream[4 + Value(stream[..4])..]
  {
    if |stream| < 4 then Err(HeaderLengthUnreadable)
    else
      var len := Value(stream[..4]);
      if len == 0 || len > MAX_HEADER_BYTES then Err(BadHeaderLength)
      else if |stream| - 4 < len then Err(HeaderUnreadable)
      else
        var h := lib.parse(stream[4..4 + len]);
        if h.None? then Err(HeaderUnparsable) else Ok(Frame0(h.value, stream[4 + len..]))
  }

  function Decode(lib: Library, enclavePub: Data, browser: BrowserKey, stream: Data): Result<Opened, DecodeError> {
    if browser.Missing? then Err(MissingBrowserKey)
    else if browser.Undecodable? || |browser.bytes| != 32 then Err(BadBrowserKey)
    else
      var f := ReadHeader(lib, stream);
      if f.Err? then Err(f.error) else DecodeBody(lib, enclavePub, browser.bytes, f.value.header, f.value.body)
  }

  /** What the decoder makes of the bytes after a header. */
  function DecodeBody(lib: Library, enclavePub: Data, browserPub: Data, h: Header, body: Data)
    : Result<Opened, DecodeError>
  {
    var s := Admit(lib, enclavePub, browserPub, h);
    if s.Err? then Err(s.error) else CheckDigest(lib, h.plaintextSha256, OpenChunks(lib, s.value, 0, body))
  }

  // ---------------------------------------------------------------- reference encoder

  /** A length-prefixed frame: four big-endian bytes, then the payload. */
  function Frame(payload: Data): Data
    requires |payload| < Pow256(4)
  {
    BigEndian(|payload|, PREFIX_BYTES) + payload
  }

  ghost predicate Framable(payloads: seq<Data>) {
    forall k :: 0 <= k < |payloads| ==> |payloads[k]| < Pow256(4)
  }

  function Frames(payloads: seq<Data>): Data
    requires Framable(payloads)
  {
    if payloads == [] then [] else Frame(payloads[0]) + Frames(payloads[1..])
  }

  /** Chunk i of a session sealed under its own nonce and associated data. */
  function SealChunk(lib: Library, s: Session, i: nat, chunk: Data): Data {
    lib.seal(s.key, NonceAt(s.iv, i), Aad(i, s.total, s.fileId), chunk)
  }

  function SealFrom(lib: Library, s: Session, i: nat, chunks: seq<Data>): (cts: seq<Data>)
    ensures |cts| == |chunks|
    decreases |chunks|
  {
    if chunks == [] then [] else [SealChunk(lib, s, i, chunks[0])] + SealFrom(lib, s, i + 1, chunks[1..])
  }

  /** A whole upload: the header frame, then one frame per ciphertext. */
  function EncodeStream(headerBytes: Data, cts: seq<Data>): Data
    requires |headerBytes| <= MAX_HEADER_BYTES && Framable(cts)
  {
    assert MAX_HEADER_BYTES < Pow256(4);
    Frame(headerBytes) + Frames(cts)
  }

  function Concat(chunks: seq<Data>): Data {
    if chunks == [] then [] else chunks[0] + Concat(chunks[1..])
  }

  /** The bytes on the wire: 4 + |p| for every frame. */
  function WireLength(payloads: seq<Data>): nat {
    if payloads == [] then 0 else 4 + |payloads[0]| + WireLength(payloads[1..])
  }
}
