/** Why the decoder refuses a stream: each error is returned exactly for its own defect, the first
    that a reader of the bytes comes upon. */
module ChunkedRejections {
  import opened Wrappers
  import opened Bytes
  import opened ChunkedFormat
  import opened ChunkedProofs

  // ---------------------------------------------------------------- defects

  /** The frame that should stand at the front of these bytes as number k is cut off, or does not open. */
  ghost predicate FrameDefect(lib: Library, s: Session, k: nat, rest: Data, e: DecodeError) {
    match e
    case ChunkLengthUnreadable(i) => i == k && |rest| < 4
    case ChunkUnreadable(i) => i == k && 4 <= |rest| < 4 + Value(rest[..4])
    case ChunkUnauthentic(i) =>
      && i == k && |rest| >= 4 && |rest| >= 4 + Value(rest[..4])
      && lib.open(s.key, NonceAt(s.iv, k), Aad(k, s.total, s.fileId), rest[4..4 + Value(rest[..4])]) == None
    case _ => false
  }

  /** Frames that open, fewer than announced, with these bytes after them. */
  ghost predicate OpensUpTo(
    lib: Library, s: Session, i: nat, stream: Data, cts: seq<Data>, pts: seq<Data>, rest: Data)
  {
    && i + |cts| < s.total && Framable(cts) && AllOpen(lib, s, i, cts, pts)
    && stream == Frames(cts) + rest
  }

  /** From chunk i on, some frames open and the next one is defective. */
  ghost predicate ChunkDefect(lib: Library, s: Session, i: nat, stream: Data, e: DecodeError) {
    exists cts, pts, rest ::
      OpensUpTo(lib, s, i, stream, cts, pts, rest) && FrameDefect(lib, s, i + |cts|, rest, e)
  }

  /** All announced frames open, but their contents are not what the header commits to. */
  ghost predicate WrongContents(lib: Library, s: Session, expected: Data, stream: Data) {
    exists cts, pts, rest ::
      && |cts| == s.total && Framable(cts) && AllOpen(lib, s, 0, cts, pts) && stream == Frames(cts) + rest
      && expected != [] && lib.sha256Hex(Concat(pts)) != expected
  }

  /** What is wrong with a header, given that the checks made before this one pass. */
  ghost predicate HeaderDefect(lib: Library, enclavePub: Data, browserPub: Data, h: Header, e: DecodeError) {
    if !(0 < h.totalChunks <= 16384) then e == BadTotalChunks
    else if h.fileId == [] then e == MissingFileId
    else if h.enc == None then e == BadEnc
    else if h.wrappedKey == None then e == BadWrappedKey
    else if h.baseIV == None || |h.baseIV.value| != 12 then e == BadBaseIV
    else
      match lib.unwrap(h.enc.value, ContextInfo(lib, enclavePub, browserPub), h.wrappedKey.value)
      case None => e == UnwrapFailed
      case Some(key) => |key| != 32 && e == BadKeyLength
  }

  /** The defect of a body whose header is h. */
  ghost predicate BodyDefect(
    lib: Library, enclavePub: Data, browserPub: Data, h: Header, body: Data, e: DecodeError)
  {
    || HeaderDefect(lib, enclavePub, browserPub, h, e)
    || exists s ::
         && Admissible(lib, enclavePub, browserPub, h, s)
         && (ChunkDefect(lib, s, 0, body, e) || (WrongContents(lib, s, h.plaintextSha256, body) && e == DigestMismatch))
  }

  /** The first defect of a request. */
  ghost predicate Defect(lib: Library, enclavePub: Data, browser: BrowserKey, stream: Data, e: DecodeError) {
    if browser.Missing? then e == MissingBrowserKey
    else if browser.Undecodable? || |browser.bytes| != 32 then e == BadBrowserKey
    else if |stream| < 4 then e == HeaderLengthUnreadable
    else if !(0 < Value(stream[..4]) <= 8192) then e == BadHeaderLength
    else if |stream| < 4 + Value(stream[..4]) then e == HeaderUnreadable
    else
      match lib.parse(stream[4..4 + Value(stream[..4])])
      case None => e == HeaderUnparsable
      case Some(h) => BodyDefect(lib, enclavePub, browser.bytes, h, stream[4 + Value(stream[..4])..], e)
  }

  // ---------------------------------------------------------------- the chunk loop

  /** A failed read got through some frames and stopped at a defective one. */
  lemma {:induction false} FailureStops(lib: Library, s: Session, i: nat, stream: Data, e: DecodeError)
    requires OpenChunks(lib, s, i, stream) == Err(e)
    ensures ChunkDefect(lib, s, i, stream, e)
    decreases s.total - i
  {
    if FirstFrame(lib, s, i, stream).None? {
      StopsHere(lib, s, i, stream, e);
    } else {
      FailsLater(lib, s, i, stream, FirstFrame(lib, s, i, stream).value, e);
      FailureStops(lib, s, i + 1, stream[4 + Value(stream[..4])..], e);
      FrameInFront(lib, s, i, stream, FirstFrame(lib, s, i, stream).value, e);
    }
  }

  /** The contents of the frame in front, if it is whole and opens as number i. */
  function FirstFrame(lib: Library, s: Session, i: nat, stream: Data): (pt: Option<Data>)
    ensures pt.Some? ==>
      && |stream| >= 4 && |stream| >= 4 + Value(stream[..4])
      && OpensTo(lib, s, i, stream[4..4 + Value(stream[..4])], pt.value)
  {
    if |stream| < 4 || |stream| < 4 + Value(stream[..4]) then None
    else lib.open(s.key, NonceAt(s.iv, i), Aad(i, s.total, s.fileId), stream[4..4 + Value(stream[..4])])
  }

  lemma StopsHere(lib: Library, s: Session, i: nat, stream: Data, e: DecodeError)
    requires OpenChunks(lib, s, i, stream) == Err(e) && FirstFrame(lib, s, i, stream) == None
    ensures ChunkDefect(lib, s, i, stream, e)
  {
    assert Frames([]) + stream == stream;
    assert OpensUpTo(lib, s, i, stream, [], [], stream);
  }

  lemma FailsLater(lib: Library, s: Session, i: nat, stream: Data, pt: Data, e: DecodeError)
    requires OpenChunks(lib, s, i, stream) == Err(e) && |stream| >= 4 && |stream| >= 4 + Value(stream[..4])
    requires OpensTo(lib, s, i, stream[4..4 + Value(stream[..4])], pt)
    ensures i < s.total && OpenChunks(lib, s, i + 1, stream[4 + Value(stream[..4])..]) == Err(e)
  {
  }

  lemma FrameInFront(lib: Library, s: Session, i: nat, stream: Data, pt: Data, e: DecodeError)
    requires |stream| >= 4 && |stream| >= 4 + Value(stream[..4])
    requires OpensTo(lib, s, i, stream[4..4 + Value(stream[..4])], pt)
    requires ChunkDefect(lib, s, i + 1, stream[4 + Value(stream[..4])..], e)
    ensures ChunkDefect(lib, s, i, stream, e)
  {
    var end := 4 + Value(stream[..4]);
    var cts, pts, rest :|
      OpensUpTo(lib, s, i + 1, stream[end..], cts, pts, rest) && FrameDefect(lib, s, i + 1 + |cts|, rest, e);
    var _, _ := OneMoreOpens(lib, s, i, stream, pt, cts, pts, rest);
  }

  lemma OneMoreOpens(
    lib: Library, s: Session, i: nat, stream: Data, pt: Data, cts: seq<Data>, pts: seq<Data>, rest: Data)
    returns (cts': seq<Data>, pts': seq<Data>)
    requires |stream| >= 4 && |stream| >= 4 + Value(stream[..4])
    requires OpensTo(lib, s, i, stream[4..4 + Value(stream[..4])], pt)
    requires OpensUpTo(lib, s, i + 1, stream[4 + Value(stream[..4])..], cts, pts, rest)
    ensures OpensUpTo(lib, s, i, stream, cts', pts', rest) && i + |cts'| == i + 1 + |cts|
  {
    var end := 4 + Value(stream[..4]);
    FrameOfPrefix(stream, end);
    FramesCons(stream[4..end], cts, stream, end, rest);
    cts', pts' := [stream[4..end]] + cts, [pt] + pts;
    assert cts'[1..] == cts && pts'[1..] == pts;
    AllOpenCons(lib, s, i, cts', pts');
  }

  /** After frames that open, an error in the bytes that follow is the error of the whole. */
  lemma {:induction false} OpensThrough(
    lib: Library, s: Session, i: nat, cts: seq<Data>, pts: seq<Data>, rest: Data, e: DecodeError)
    requires i + |cts| <= s.total && Framable(cts) && AllOpen(lib, s, i, cts, pts)
    requires OpenChunks(lib, s, i + |cts|, rest) == Err(e)
    ensures OpenChunks(lib, s, i, Frames(cts) + rest) == Err(e)
    decreases |cts|
  {
    if cts == [] {
      assert Frames(cts) + rest == rest;
    } else {
      assert i + 1 + |cts[1..]| == i + |cts|;
      OpensThrough(lib, s, i + 1, cts[1..], pts[1..], rest, e);
      FailsBehindFrame(lib, s, i, cts[0], pts[0], Frames(cts[1..]) + rest, e);
      Reassociate(Frame(cts[0]), Frames(cts[1..]), rest);
    }
  }

  lemma FailsBehindFrame(lib: Library, s: Session, i: nat, ct: Data, pt: Data, more: Data, e: DecodeError)
    requires i < s.total && |ct| < Pow256(4) && OpensTo(lib, s, i, ct, pt)
    requires OpenChunks(lib, s, i + 1, more) == Err(e)
    ensures OpenChunks(lib, s, i, Frame(ct) + more) == Err(e)
  {
    FrameParts(ct, more);
    OpenFirst(lib, s, i, Frame(ct) + more, ct, pt, more);
  }

  lemma DefectStops(lib: Library, s: Session, k: nat, rest: Data, e: DecodeError)
    requires k < s.total && FrameDefect(lib, s, k, rest, e)
    ensures OpenChunks(lib, s, k, rest) == Err(e)
  {
  }

  lemma DefectFails(lib: Library, s: Session, stream: Data, e: DecodeError)
    requires ChunkDefect(lib, s, 0, stream, e)
    ensures OpenChunks(lib, s, 0, stream) == Err(e)
  {
    var cts, pts, rest :| OpensUpTo(lib, s, 0, stream, cts, pts, rest) && FrameDefect(lib, s, 0 + |cts|, rest, e);
    DefectStops(lib, s, 0 + |cts|, rest, e);
    OpensThrough(lib, s, 0, cts, pts, rest, e);
  }

  lemma ChunkDefectIff(lib: Library, s: Session, stream: Data, e: DecodeError)
    ensures OpenChunks(lib, s, 0, stream) == Err(e) <==> ChunkDefect(lib, s, 0, stream, e)
  {
    if OpenChunks(lib, s, 0, stream) == Err(e) {
      FailureStops(lib, s, 0, stream, e);
    }
    if ChunkDefect(lib, s, 0, stream, e) {
      DefectFails(lib, s, stream, e);
    }
  }

  lemma WrongContentsIff(lib: Library, s: Session, expected: Data, stream: Data)
    ensures WrongContents(lib, s, expected, stream) <==>
      var r := OpenChunks(lib, s, 0, stream);
      r.Ok? && CheckDigest(lib, expected, r) == Err(DigestMismatch)
  {
    var r := OpenChunks(lib, s, 0, stream);
    if r.Ok? && CheckDigest(lib, expected, r).Err? {
      ReadBack(lib, s, 0, stream);
      var (cts, pts) := (ReadFrames(lib, s, 0, stream), ReadChunks(lib, s, 0, stream));
      assert stream == Frames(cts) + r.value.rest;
    }
    if WrongContents(lib, s, expected, stream) {
      var cts, pts, rest :|
        && |cts| == s.total && Framable(cts) && AllOpen(lib, s, 0, cts, pts) && stream == Frames(cts) + rest
        && expected != [] && lib.sha256Hex(Concat(pts)) != expected;
      OpensInOrder(lib, s, 0, cts, pts, rest);
    }
  }

  // ---------------------------------------------------------------- the whole decoder

  lemma HeaderDefectIff(lib: Library, enclavePub: Data, browserPub: Data, h: Header, e: DecodeError)
    ensures Admit(lib, enclavePub, browserPub, h) == Err(e) <==> HeaderDefect(lib, enclavePub, browserPub, h, e)
  {
  }

  lemma BodyDefectIff(lib: Library, enclavePub: Data, browserPub: Data, h: Header, body: Data, e: DecodeError)
    ensures
      DecodeBody(lib, enclavePub, browserPub, h, body) == Err(e)
      <==> BodyDefect(lib, enclavePub, browserPub, h, body, e)
  {
    HeaderDefectIff(lib, enclavePub, browserPub, h, e);
    var admitted := Admit(lib, enclavePub, browserPub, h);
    if admitted.Ok? {
      var s := admitted.value;
      AdmitsIff(lib, enclavePub, browserPub, h, s);
      ChunkDefectIff(lib, s, body, e);
      WrongContentsIff(lib, s, h.plaintextSha256, body);
      assert forall t :: Admissible(lib, enclavePub, browserPub, h, t) ==> t == s;
      OpeningErrorIsNotDigest(lib, s, body);
    } else {
      forall t {
        AdmitsIff(lib, enclavePub, browserPub, h, t);
      }
    }
  }

  lemma OpeningErrorIsNotDigest(lib: Library, s: Session, body: Data)
    ensures OpenChunks(lib, s, 0, body) != Err(DigestMismatch)
  {
    ChunkDefectIff(lib, s, body, DigestMismatch);
  }

  /** A request is refused with an error exactly if that is its first defect; so it is accepted exactly
      if it has none. */
  lemma FirstDefectReported(lib: Library, enclavePub: Data, browser: BrowserKey, stream: Data, e: DecodeError)
    ensures Decode(lib, enclavePub, browser, stream) == Err(e) <==> Defect(lib, enclavePub, browser, stream, e)
  {
    if browser.Decoded? && |browser.bytes| == 32 && ReadHeader(lib, stream).Ok? {
      var f := ReadHeader(lib, stream).value;
      BodyDefectIff(lib, enclavePub, browser.bytes, f.header, f.body, e);
    }
  }
}
