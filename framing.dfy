/**
 * The `<<START>>json<<END>>` envelope spoken over the BLE UART link: building the
 * envelope, cutting it into 20-byte writes, and the accumulation buffer that the two
 * notify handlers of the Bluetooth view model feed chunk by chunk.
 *
 * Bytes are modelled as characters: the commands and responses are ASCII, for which
 * UTF-8 encoding and per-chunk decoding are the identity.
 */
module Framing {
  import opened Wrappers

  const StartMarker: string := "<<START>>"
  const EndMarker: string := "<<END>>"
  /** Size of one BLE write. */
  const ChunkSize: nat := 20

  function Min(a: int, b: int): int { if a <= b then a else b }

  /** The envelope that wraps one JSON command or response. */
  function Envelope(json: string): (e: string)
    ensures |e| == |StartMarker| + |json| + |EndMarker|
    ensures e[..|StartMarker|] == StartMarker
    ensures e[|StartMarker|..|StartMarker| + |json|] == json
    ensures e[|StartMarker| + |json|..] == EndMarker
  {
    StartMarker + json + EndMarker
  }

  // ---------------------------------------------------------------------------
  // Searching: Kotlin's String.indexOf(other, startIndex) for a non-empty needle
  // ---------------------------------------------------------------------------

  ghost predicate OccursAt(s: string, pat: string, i: int) {
    0 <= i && i + |pat| <= |s| && s[i..i + |pat|] == pat
  }

  /** The first index at or after `from` where `pat` occurs in `s`, or -1 when there is none. */
  function IndexOf(s: string, pat: string, from: nat): (r: int)
    requires |pat| > 0
    ensures r == -1 || (from <= r && OccursAt(s, pat, r))
    ensures forall i :: from <= i && (r == -1 || i < r) ==> !OccursAt(s, pat, i)
    decreases |s| - from
  {
    if from + |pat| > |s| then -1
    else if s[from..from + |pat|] == pat then from
    else IndexOf(s, pat, from + 1)
  }

  // ---------------------------------------------------------------------------
  // Kotlin's String.trim(): drops leading and trailing characters for which
  // Char.isWhitespace() holds (Character.isWhitespace or Character.isSpaceChar).
  // ---------------------------------------------------------------------------

  predicate IsWhitespace(c: char) {
    || c == ' ' || c == '\t' || c == '\n' || c == '\r'
    || c == '\U{B}' || c == '\U{C}'
    || ('\U{1C}' <= c <= '\U{1F}')
    || c == '\U{A0}' || c == '\U{1680}'
    || ('\U{2000}' <= c <= '\U{200A}')
    || c == '\U{2028}' || c == '\U{2029}' || c == '\U{202F}' || c == '\U{205F}' || c == '\U{3000}'
  }

  /** `s` without its leading whitespace. */
  function TrimStart(s: string): string {
    if s != [] && IsWhitespace(s[0]) then TrimStart(s[1..]) else s
  }

  /** `s` without its trailing whitespace. */
  function TrimEnd(s: string): string {
    if s != [] && IsWhitespace(s[|s| - 1]) then TrimEnd(s[..|s| - 1]) else s
  }

  /** `s` with its leading and trailing whitespace removed (its meaning is stated by TrimSpec). */
  function Trim(s: string): string {
    TrimEnd(TrimStart(s))
  }

  lemma {:induction false} TrimStartSpec(s: string)
    ensures var r := TrimStart(s);
      && |r| <= |s| && r == s[|s| - |r|..]
      && (forall i :: 0 <= i < |s| - |r| ==> IsWhitespace(s[i]))
      && (r != [] ==> !IsWhitespace(r[0]))
  {
    if s != [] && IsWhitespace(s[0]) {
      TrimStartSpec(s[1..]);
      var r := TrimStart(s[1..]);
      assert s[1..][|s| - 1 - |r|..] == s[|s| - |r|..];
      forall i | 0 <= i < |s| - |r| ensures IsWhitespace(s[i]) {
        if i > 0 { assert s[i] == s[1..][i - 1]; }
      }
    }
  }

  lemma {:induction false} TrimEndSpec(s: string)
    ensures var r := TrimEnd(s);
      && |r| <= |s| && r == s[..|r|]
      && (forall i :: |r| <= i < |s| ==> IsWhitespace(s[i]))
      && (r != [] ==> !IsWhitespace(r[|r| - 1]))
  {
    if s != [] && IsWhitespace(s[|s| - 1]) {
      var s' := s[..|s| - 1];
      TrimEndSpec(s');
      var r := TrimEnd(s');
      assert s'[..|r|] == s[..|r|];
      forall i | |r| <= i < |s| ensures IsWhitespace(s[i]) {
        if i < |s| - 1 { assert s[i] == s'[i]; }
      }
    }
  }

  /** Trim keeps a contiguous part of `s`, drops only whitespace around it, and keeps none at its ends. */
  lemma TrimSpec(s: string)
    ensures var t, r := TrimStart(s), Trim(s);
      |t| <= |s| &&
      var lo := |s| - |t|;
      && lo + |r| <= |s| && r == s[lo..lo + |r|]
      && (forall i :: 0 <= i < lo ==> IsWhitespace(s[i]))
      && (forall i :: lo + |r| <= i < |s| ==> IsWhitespace(s[i]))
      && (r != [] ==> !IsWhitespace(r[0]) && !IsWhitespace(r[|r| - 1]))
  {
    TrimStartSpec(s);
    TrimEndSpec(TrimStart(s));
  }

  // ---------------------------------------------------------------------------
  // The accumulation buffer (handleWiFiScanResponse / handleConnectionWifiResponse)
  // ---------------------------------------------------------------------------

  /** A complete framed message found in the buffer: its trimmed payload and where its markers sat. */
  datatype Frame = Frame(payload: string, start: nat, end: nat)

  /** The outcome of one notify chunk: at most one frame, and the buffer kept for the next chunk. */
  datatype FeedResult = FeedResult(frame: Option<Frame>, buffer: string)

  /**
   * Appends `chunk` to `buffer`, looks for the first start marker and the first end marker
   * that begins at or after the end of that start marker. When both are there the trimmed
   * text between them is returned and the buffer becomes the text after that end marker;
   * otherwise nothing is returned and the buffer is the concatenation.
   */
  function Feed(buffer: string, chunk: string): FeedResult
  {
    var b := buffer + chunk;
    var st := IndexOf(b, StartMarker, 0);
    var en := IndexOf(b, EndMarker, st + |StartMarker|);
    if st != -1 && en != -1 then
      FeedResult(Some(Frame(Trim(b[st + |StartMarker|..en]), st, en)), b[en + |EndMarker|..])
    else
      FeedResult(None, b)
  }

  /** What Feed finds: the first start marker, then the first end marker after it. */
  lemma FeedSpec(buffer: string, chunk: string)
    ensures Feed(buffer, chunk).frame.None? ==> Feed(buffer, chunk).buffer == buffer + chunk
    ensures var r := Feed(buffer, chunk);
      r.frame.Some? ==>
      var b, f := buffer + chunk, r.frame.value;
      && OccursAt(b, StartMarker, f.start)
      && (forall i :: 0 <= i < f.start ==> !OccursAt(b, StartMarker, i))
      && f.start + |StartMarker| <= f.end
      && OccursAt(b, EndMarker, f.end)
      && (forall j :: f.start + |StartMarker| <= j < f.end ==> !OccursAt(b, EndMarker, j))
      && f.payload == Trim(b[f.start + |StartMarker|..f.end])
      && r.buffer == b[f.end + |EndMarker|..]
  {
  }

  /**
   * A frame is extracted exactly when the buffer plus chunk holds a start marker and an
   * end marker that begins at or after the end of that start marker; an end marker that
   * comes earlier is ignored.
   */
  lemma FeedFindsFrameIff(buffer: string, chunk: string)
    ensures var b := buffer + chunk;
      Feed(buffer, chunk).frame.Some? <==>
        exists st, en :: OccursAt(b, StartMarker, st) && OccursAt(b, EndMarker, en) && st + |StartMarker| <= en
  {
    var b := buffer + chunk;
    var st := IndexOf(b, StartMarker, 0);
    if st != -1 {
      var en := IndexOf(b, EndMarker, st + |StartMarker|);
      if en == -1 {
        forall s', e' | OccursAt(b, StartMarker, s') && OccursAt(b, EndMarker, e')
          ensures e' < s' + |StartMarker|
        {
          assert st <= s';
        }
      }
    }
  }

  /** IndexOf finds an occurrence exactly when no earlier one lies between `from` and it. */
  lemma IndexOfIsFirst(s: string, pat: string, from: nat, k: nat)
    requires |pat| > 0 && from <= k && OccursAt(s, pat, k)
    requires forall i :: from <= i < k ==> !OccursAt(s, pat, i)
    ensures IndexOf(s, pat, from) == k
  {
  }

  /** What a sequence of notify chunks produces: one optional payload per chunk, and the final buffer. */
  datatype Trace = Trace(outputs: seq<Option<string>>, buffer: string)

  function Payload(r: FeedResult): Option<string> {
    if r.frame.Some? then Some(r.frame.value.payload) else None
  }

  /** Feeds `chunks` one after another, starting from `buffer`. */
  function FeedAll(buffer: string, chunks: seq<string>): (t: Trace)
    ensures |t.outputs| == |chunks|
    decreases |chunks|
  {
    if chunks == [] then Trace([], buffer)
    else
      var r := Feed(buffer, chunks[0]);
      var t := FeedAll(r.buffer, chunks[1..]);
      Trace([Payload(r)] + t.outputs, t.buffer)
  }

  // ---------------------------------------------------------------------------
  // Fragmenting: the `for (offset in bytes.indices step chunkSize)` loops
  // ---------------------------------------------------------------------------

  /** The concatenation of a sequence of slices. */
  function Flatten<T>(ss: seq<seq<T>>): seq<T>
    decreases |ss|
  {
    if ss == [] then [] else ss[0] + Flatten(ss[1..])
  }

  /** The slices written for `s`: contiguous, in order, ChunkSize long except possibly the last. */
  function Chunks<T>(s: seq<T>): (cs: seq<seq<T>>)
    decreases |s|
  {
    if s == [] then [] else
    var n := Min(ChunkSize, |s|);
    [s[..n]] + Chunks(s[n..])
  }

  lemma {:induction false} ChunksFlatten<T>(s: seq<T>)
    ensures Flatten(Chunks(s)) == s
    decreases |s|
  {
    if s != [] {
      var n := Min(ChunkSize, |s|);
      ChunksFlatten(s[n..]);
      assert Chunks(s)[1..] == Chunks(s[n..]);
      assert s == s[..n] + s[n..];
    }
  }

  /** Slice `i` starts at byte 20*i, has length min(20, remaining) and is never empty. */
  lemma {:induction false} ChunkAt<T>(s: seq<T>, i: nat)
    requires i < |Chunks(s)|
    ensures ChunkSize * i < |s|
    ensures Chunks(s)[i] == s[ChunkSize * i..Min(ChunkSize * i + ChunkSize, |s|)]
    ensures |Chunks(s)[i]| == Min(ChunkSize, |s| - ChunkSize * i) > 0
    decreases |s|
  {
    var n := Min(ChunkSize, |s|);
    if i > 0 {
      assert Chunks(s)[i] == Chunks(s[n..])[i - 1];
      ChunkAt(s[n..], i - 1);
    }
  }

  /** The number of writes is |s| / 20 rounded up. */
  lemma {:induction false} ChunksCount<T>(s: seq<T>)
    ensures |Chunks(s)| == (|s| + ChunkSize - 1) / ChunkSize
    decreases |s|
  {
    if s != [] {
      ChunksCount(s[Min(ChunkSize, |s|)..]);
    }
  }

  /**
   * The write loop of both gateway commands: slices of at most 20 bytes, in order, each
   * written to the write characteristic. `failsAt` is the index of the first write that
   * throws, if any; the loop stops there and the earlier slices stay sent.
   */
  method WriteChunks<T>(bytes: seq<T>, failsAt: Option<nat>) returns (sent: seq<seq<T>>, delivered: bool)
    ensures delivered <==> failsAt.None? || failsAt.value >= |Chunks(bytes)|
    ensures delivered ==> sent == Chunks(bytes)
    ensures !delivered ==> sent == Chunks(bytes)[..failsAt.value]
  {
    sent := [];
    var offset := 0;
    while offset < |bytes|
      invariant 0 <= offset <= |bytes|
      invariant sent + Chunks(bytes[offset..]) == Chunks(bytes)
      invariant failsAt.None? || |sent| <= failsAt.value
      decreases |bytes| - offset
    {
      if failsAt == Some(|sent|) {
        assert |Chunks(bytes[offset..])| > 0;
        assert Chunks(bytes)[..|sent|] == sent;
        return sent, false;
      }
      var end := Min(offset + ChunkSize, |bytes|);
      assert Chunks(bytes[offset..]) == [bytes[offset..end]] + Chunks(bytes[end..]) by {
        var rest := bytes[offset..];
        assert rest[..end - offset] == bytes[offset..end];
        assert rest[end - offset..] == bytes[end..];
      }
      sent := sent + [bytes[offset..end]];
      offset := end;
    }
    assert bytes[offset..] == [];
    return sent, true;
  }

  // ---------------------------------------------------------------------------
  // Round trip: an envelope cut into chunks and fed back yields the trimmed JSON
  // ---------------------------------------------------------------------------

  ghost predicate HasNoEndMarker(json: string) {
    forall i :: !OccursAt(json, EndMarker, i)
  }

  /** The end marker cannot overlap itself, so no occurrence can straddle json and the real marker. */
  lemma EndMarkerSelfOverlapFree()
    ensures forall m :: 1 <= m < |EndMarker| ==>
      EndMarker[m] != EndMarker[0] || (m + 1 < |EndMarker| && EndMarker[m + 1] != EndMarker[1])
  {
  }

  /** Inside an envelope whose JSON has no end marker, the only end marker is the closing one. */
  lemma {:induction false} NoEarlyEndMarker(json: string, j: int)
    requires HasNoEndMarker(json)
    requires |StartMarker| <= j < |StartMarker| + |json|
    ensures !OccursAt(Envelope(json), EndMarker, j)
  {
    var e, k := Envelope(json), |StartMarker| + |json|;
    if j + |EndMarker| <= k {
      // the candidate lies inside json, where there is no end marker
      assert e[j..j + |EndMarker|] == json[j - |StartMarker|..j - |StartMarker| + |EndMarker|];
      assert !OccursAt(json, EndMarker, j - |StartMarker|);
    } else {
      // the candidate would overlap the closing marker, which cannot overlap itself
      EndMarkerSelfOverlapFree();
      assert e[k] == EndMarker[0] && e[k + 1] == EndMarker[1];
    }
  }

  /**
   * Fed a complete envelope followed by anything, an empty buffer yields trim(json) and
   * keeps exactly what followed: one payload per chunk, the next message left for later.
   */
  lemma {:induction false} FeedEnvelopeThen(json: string, rest: string)
    requires HasNoEndMarker(json)
    ensures Feed("", Envelope(json) + rest)
         == FeedResult(Some(Frame(Trim(json), 0, |StartMarker| + |json|)), rest)
  {
    var b := Envelope(json) + rest;
    var k := |StartMarker| + |json|;
    assert Feed("", b) == FeedResult(Some(Frame(Trim(b[|StartMarker|..k]), 0, k)), b[k + |EndMarker|..]) by {
      EnvelopeSearches(json, rest);
      assert "" + b == b;
      FeedFound("", b, 0, k);
    }
    assert b[|StartMarker|..k] == json && b[k + |EndMarker|..] == rest by {
      assert b[..|Envelope(json)|] == Envelope(json);
    }
  }

  /** In an envelope followed by anything, the searches find its own start and end markers. */
  lemma EnvelopeSearches(json: string, rest: string)
    requires HasNoEndMarker(json)
    ensures IndexOf(Envelope(json) + rest, StartMarker, 0) == 0
    ensures IndexOf(Envelope(json) + rest, EndMarker, |StartMarker|) == |StartMarker| + |json|
  {
    var e := Envelope(json);
    var b := e + rest;
    var k := |StartMarker| + |json|;
    OccursAtPrefix(e, rest, StartMarker, 0);
    IndexOfIsFirst(b, StartMarker, 0, 0);
    OccursAtPrefix(e, rest, EndMarker, k);
    forall j | |StartMarker| <= j < k ensures !OccursAt(b, EndMarker, j) {
      OccursAtPrefix(e, rest, EndMarker, j);
      NoEarlyEndMarker(json, j);
    }
    IndexOfIsFirst(b, EndMarker, |StartMarker|, k);
  }

  /**
   * An end marker left in the buffer before a start marker is skipped: fed a whole
   * envelope, a buffer holding a stray end marker yields trim(json) and ends empty, the
   * stray marker dropped with the frame.
   */
  lemma {:induction false} LeadingEndMarkerIgnored(json: string)
    requires HasNoEndMarker(json)
    ensures Feed(EndMarker, Envelope(json))
         == FeedResult(Some(Frame(Trim(json), |EndMarker|, |EndMarker| + |StartMarker| + |json|)), "")
  {
    var e := Envelope(json);
    var b := EndMarker + e;
    var p, k := |EndMarker|, |StartMarker| + |json|;
    assert Feed(EndMarker, e) == FeedResult(Some(Frame(Trim(b[p + |StartMarker|..p + k]), p, p + k)), b[p + k + |EndMarker|..]) by {
      StrayEndSearches(json);
      FeedFound(EndMarker, e, p, p + k);
    }
    assert b[p + |StartMarker|..p + k] == json && b[p + k + |EndMarker|..] == [] by {
      assert b[p..] == e;
      assert b[p + |StartMarker|..p + k] == e[|StartMarker|..k];
    }
  }

  /** Behind a stray end marker, the searches find the envelope's own start and end markers. */
  lemma StrayEndSearches(json: string)
    requires HasNoEndMarker(json)
    ensures IndexOf(EndMarker + Envelope(json), StartMarker, 0) == |EndMarker|
    ensures IndexOf(EndMarker + Envelope(json), EndMarker, |EndMarker| + |StartMarker|)
         == |EndMarker| + |StartMarker| + |json|
  {
    var e := Envelope(json);
    var b := EndMarker + e;
    var p, k := |EndMarker|, |StartMarker| + |json|;
    OccursAtShift(EndMarker, e, StartMarker, 0);
    forall i | 0 <= i < p ensures !OccursAt(b, StartMarker, i) {
      NoStartMarkerInStrayEnd(json, i);
    }
    IndexOfIsFirst(b, StartMarker, 0, p);
    OccursAtShift(EndMarker, e, EndMarker, k);
    forall j | p + |StartMarker| <= j < p + k ensures !OccursAt(b, EndMarker, j) {
      OccursAtShift(EndMarker, e, EndMarker, j - p);
      NoEarlyEndMarker(json, j - p);
    }
    IndexOfIsFirst(b, EndMarker, p + |StartMarker|, p + k);
  }

  /** Feed when both searches succeed, stated without the quantifiers of its contract. */
  lemma FeedFound(buffer: string, chunk: string, st: nat, en: nat)
    requires IndexOf(buffer + chunk, StartMarker, 0) == st
    requires IndexOf(buffer + chunk, EndMarker, st + |StartMarker|) == en
    ensures st + |StartMarker| <= en && en + |EndMarker| <= |buffer + chunk|
    ensures Feed(buffer, chunk)
         == FeedResult(Some(Frame(Trim((buffer + chunk)[st + |StartMarker|..en]), st, en)), (buffer + chunk)[en + |EndMarker|..])
  {
  }

  /** No start marker begins inside a stray end marker in front of an envelope: it would put an 'S' where there is none. */
  lemma NoStartMarkerInStrayEnd(json: string, i: nat)
    requires i < |EndMarker|
    ensures !OccursAt(EndMarker + Envelope(json), StartMarker, i)
  {
    var b := EndMarker + Envelope(json);
    assert b[|EndMarker|..|EndMarker| + 2] == StartMarker[..2];
    assert b[i + 2] != 'S';
    if i + |StartMarker| <= |b| {
      assert b[i..i + |StartMarker|][2] == b[i + 2];
    }
  }

  /** An occurrence in `q` is an occurrence in `p + q`, shifted by `p`, and conversely. */
  lemma OccursAtShift(p: string, q: string, pat: string, j: nat)
    ensures OccursAt(p + q, pat, |p| + j) == OccursAt(q, pat, j)
  {
    if j + |pat| <= |q| {
      assert (p + q)[|p| + j..|p| + j + |pat|] == q[j..j + |pat|];
    }
  }

  /** An occurrence that fits inside `p` is an occurrence in `p + q` and conversely. */
  lemma OccursAtPrefix(p: string, q: string, pat: string, i: int)
    requires i + |pat| <= |p|
    ensures OccursAt(p + q, pat, i) == OccursAt(p, pat, i)
  {
    if 0 <= i {
      assert (p + q)[i..i + |pat|] == p[i..i + |pat|];
    }
  }

  /** Feed depends on the buffer and the chunk only through their concatenation. */
  lemma FeedSeesOnlyConcatenation(buffer1: string, chunk1: string, buffer2: string, chunk2: string)
    requires buffer1 + chunk1 == buffer2 + chunk2
    ensures Feed(buffer1, chunk1) == Feed(buffer2, chunk2)
  {
  }

  /** Fed the whole envelope at once, an empty buffer yields trim(json) and is left empty. */
  lemma FeedWholeEnvelope(json: string)
    requires HasNoEndMarker(json)
    ensures Feed("", Envelope(json)) == FeedResult(Some(Frame(Trim(json), 0, |StartMarker| + |json|)), "")
  {
    FeedEnvelopeThen(json, "");
    assert Envelope(json) + "" == Envelope(json);
  }

  /** Two envelopes arriving back to back in one chunk come out one per chunk, in order. */
  lemma TwoEnvelopesInOneChunk(json1: string, json2: string)
    requires HasNoEndMarker(json1) && HasNoEndMarker(json2)
    ensures var r1 := Feed("", Envelope(json1) + Envelope(json2));
      && r1.frame.Some? && r1.frame.value.payload == Trim(json1)
      && r1.buffer == Envelope(json2)
      && Feed(r1.buffer, "").frame.Some? && Feed(r1.buffer, "").frame.value.payload == Trim(json2)
  {
    var e2 := Envelope(json2);
    FeedEnvelopeThen(json1, e2);
    FeedWholeEnvelope(json2);
    FeedSeesOnlyConcatenation(e2, "", "", e2);
  }

  /** A proper prefix of such an envelope never completes a frame. */
  lemma {:induction false} FeedEnvelopePrefix(json: string, buffer: string, chunk: string)
    requires HasNoEndMarker(json)
    requires |buffer + chunk| < |Envelope(json)|
    requires buffer + chunk == Envelope(json)[..|buffer + chunk|]
    ensures Feed(buffer, chunk) == FeedResult(None, buffer + chunk)
  {
    var b := buffer + chunk;
    var e := Envelope(json);
    forall st, en | OccursAt(b, StartMarker, st) && OccursAt(b, EndMarker, en)
      ensures en < st + |StartMarker|
    {
      assert e[en..en + |EndMarker|] == b[en..en + |EndMarker|];
      if st + |StartMarker| <= en {
        NoEarlyEndMarker(json, en);
      }
    }
  }

  /** One chunk that leaves a proper prefix of the envelope in the buffer produces nothing. */
  lemma FeedAllStep(json: string, buffer: string, chunks: seq<string>)
    requires HasNoEndMarker(json)
    requires |chunks| > 1 && chunks[1] != []
    requires buffer + Flatten(chunks) == Envelope(json)
    ensures var b := buffer + chunks[0];
      && b + Flatten(chunks[1..]) == Envelope(json)
      && FeedAll(buffer, chunks) == Trace([None] + FeedAll(b, chunks[1..]).outputs, FeedAll(b, chunks[1..]).buffer)
  {
    var e := Envelope(json);
    var b := buffer + chunks[0];
    assert e == b + Flatten(chunks[1..]);
    assert |Flatten(chunks[1..])| >= |chunks[1]| > 0;
    assert b == e[..|b|];
    FeedEnvelopePrefix(json, buffer, chunks[0]);
  }

  lemma {:induction false} RoundTripFrom(json: string, buffer: string, chunks: seq<string>)
    requires HasNoEndMarker(json)
    requires chunks != [] && forall i :: 0 <= i < |chunks| ==> chunks[i] != []
    requires buffer + Flatten(chunks) == Envelope(json)
    ensures FeedAll(buffer, chunks).buffer == ""
    ensures FeedAll(buffer, chunks).outputs[|chunks| - 1] == Some(Trim(json))
    ensures forall i :: 0 <= i < |chunks| - 1 ==> FeedAll(buffer, chunks).outputs[i] == None
    decreases |chunks|
  {
    if |chunks| == 1 {
      assert buffer + chunks[0] == Envelope(json);
      FeedWholeEnvelope(json);
      FeedSeesOnlyConcatenation(buffer, chunks[0], "", Envelope(json));
    } else {
      FeedAllStep(json, buffer, chunks);
      RoundTripFrom(json, buffer + chunks[0], chunks[1..]);
    }
  }

  /**
   * Round trip: cut the envelope of a JSON text that contains no end marker into any
   * non-empty chunks (in particular the 20-byte writes) and feed them to an empty buffer;
   * nothing is produced before the last chunk, which yields trim(json) and empties the buffer.
   */
  lemma {:induction false} RoundTrip(json: string, chunks: seq<string>)
    requires HasNoEndMarker(json)
    requires chunks != [] && forall i :: 0 <= i < |chunks| ==> chunks[i] != []
    requires Flatten(chunks) == Envelope(json)
    ensures FeedAll("", chunks).buffer == ""
    ensures FeedAll("", chunks).outputs[|chunks| - 1] == Some(Trim(json))
    ensures forall i :: 0 <= i < |chunks| - 1 ==> FeedAll("", chunks).outputs[i] == None
  {
    assert "" + Flatten(chunks) == Flatten(chunks);
    RoundTripFrom(json, "", chunks);
  }

  /** The 20-byte writes of an envelope, fed back one by one, complete the same round trip. */
  lemma {:induction false} ChunkedRoundTrip(json: string)
    requires HasNoEndMarker(json)
    ensures var cs := Chunks(Envelope(json));
      && cs != []
      && FeedAll("", cs).buffer == ""
      && FeedAll("", cs).outputs[|cs| - 1] == Some(Trim(json))
      && forall i :: 0 <= i < |cs| - 1 ==> FeedAll("", cs).outputs[i] == None
  {
    var cs := Chunks(Envelope(json));
    ChunksFlatten(Envelope(json));
    assert cs != [];
    forall i | 0 <= i < |cs| ensures cs[i] != [] {
      ChunkAt(Envelope(json), i);
    }
    RoundTrip(json, cs);
  }
}
