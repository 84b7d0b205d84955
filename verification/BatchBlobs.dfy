/** Byte strings and the numbers printed in them. */
module ByteText {
  import opened Optional

  type Byte = b: int | 0 <= b < 256

  const NEWLINE: Byte := 0x0a
  const SPACE: Byte := 0x20
  const ZERO: Byte := 0x30

  /** Decoding as ASCII drops the high bit of every byte. */
  function Ascii(bytes: seq<Byte>): (r: seq<Byte>)
    ensures |r| == |bytes| && forall i | 0 <= i < |r| :: r[i] == bytes[i] % 128
  {
    seq(|bytes|, i requires 0 <= i < |bytes| => bytes[i] % 128)
  }

  predicate IsDigit(b: Byte, base: nat)
    requires base <= 10
  {
    ZERO <= b < ZERO + base
  }

  /** The value of a digit string. */
  function Value(digits: seq<Byte>, base: nat): nat
    requires base <= 10 && forall d <- digits :: IsDigit(d, base)
  {
    if digits == [] then 0
    else
      var last := digits[|digits| - 1];
      assert IsDigit(last, base);
      Value(digits[..|digits| - 1], base) * base + (last - ZERO) as nat
  }

  /** Decimal printing without leading zeros. */
  function Digits(n: nat): (r: seq<Byte>)
    ensures r != [] && forall d <- r :: IsDigit(d, 10)
  {
    if n < 10 then [ZERO + n] else Digits(n / 10) + [ZERO + n % 10]
  }

  lemma ValueAppends(digits: seq<Byte>, last: nat)
    requires last < 10 && forall d <- digits :: IsDigit(d, 10)
    ensures forall d <- digits + [ZERO + last] :: IsDigit(d, 10)
    ensures Value(digits + [ZERO + last], 10) == Value(digits, 10) * 10 + last
  {
    assert (digits + [ZERO + last])[..|digits|] == digits;
  }

  lemma {:induction false} ValueOfDigits(n: nat)
    ensures Value(Digits(n), 10) == n
  {
    if n >= 10 {
      ValueOfDigits(n / 10);
      ValueAppends(Digits(n / 10), n % 10);
    } else {
      ValueAppends([], n);
    }
  }

  /** The first index of a byte at or after `from`. */
  function IndexOf(bytes: seq<Byte>, b: Byte, from: nat): (r: Option<nat>)
    requires from <= |bytes|
    ensures r.Some? ==> from <= r.value < |bytes| && bytes[r.value] == b && b !in bytes[from..r.value]
    ensures r.None? ==> b !in bytes[from..]
    decreases |bytes| - from
  {
    if from == |bytes| then None
    else if bytes[from] == b then Some(from)
    else
      var r := IndexOf(bytes, b, from + 1);
      assert r.Some? ==> bytes[from..r.value] == [bytes[from]] + bytes[from + 1..r.value];
      assert bytes[from..] == [bytes[from]] + bytes[from + 1..];
      r
  }

  lemma {:induction false} FirstIndex(bytes: seq<Byte>, b: Byte, from: nat, index: nat)
    requires from <= index < |bytes| && bytes[index] == b && b !in bytes[from..index]
    ensures IndexOf(bytes, b, from) == Some(index)
    decreases index - from
  {
    if from < index {
      assert bytes[from..index] == [bytes[from]] + bytes[from + 1..index];
      FirstIndex(bytes, b, from + 1, index);
    }
  }
}

/** Reading the blobs of `git cat-file --batch` back out of its output stream. */
module BatchBlobs {
  import opened Optional
  import opened ByteText

  const MAX_SAFE_INTEGER: nat := 0x1F_FFFF_FFFF_FFFF
  const BLOB: seq<Byte> := [SPACE, 0x62, 0x6c, 0x6f, 0x62, SPACE]

  predicate HexDigit(b: Byte) {
    IsDigit(b, 10) || 0x61 <= b <= 0x66
  }

  predicate ObjectId(id: seq<Byte>) {
    40 <= |id| <= 64 && forall b <- id :: HexDigit(b)
  }

  /** The size a header announces, if it is the header of this object. */
  function HeaderSize(header: seq<Byte>, id: seq<Byte>): Option<nat> {
    var text := Ascii(header);
    if ObjectId(id) && |text| > |id| + 6 && text[..|id|] == id && text[|id|..|id| + 6] == BLOB
       && (forall d <- text[|id| + 6..] :: IsDigit(d, 10)) && Value(text[|id| + 6..], 10) <= MAX_SAFE_INTEGER
    then Some(Value(text[|id| + 6..], 10)) else None
  }

  /** One frame: its blob, and where the next one starts. */
  datatype Read = Read(blob: seq<Byte>, next: nat)

  /** One turn of the loop; None is any of its errors. */
  function ReadFrame(output: seq<Byte>, offset: nat, id: seq<Byte>): (r: Option<Read>)
    requires offset <= |output|
    ensures r.Some? ==> r.value.next <= |output|
  {
    match IndexOf(output, NEWLINE, offset)
    case None => None
    case Some(lineEnd) =>
      match HeaderSize(output[offset..lineEnd], id)
      case None => None
      case Some(size) =>
        var start, end := lineEnd + 1, lineEnd + 1 + size;
        if end >= |output| || output[end] != NEWLINE then None else Some(Read(output[start..end], end + 1))
  }

  function ParseFrom(output: seq<Byte>, offset: nat, ids: seq<seq<Byte>>): Option<seq<seq<Byte>>>
    requires offset <= |output|
    decreases |ids|
  {
    if ids == [] then (if offset == |output| then Some([]) else None)
    else
      match ReadFrame(output, offset, ids[0])
      case None => None
      case Some(r) => After([r.blob], ParseFrom(output, r.next, ids[1..]))
  }

  function After(blobs: seq<seq<Byte>>, rest: Option<seq<seq<Byte>>>): Option<seq<seq<Byte>>> {
    match rest
    case None => None
    case Some(more) => Some(blobs + more)
  }

  method NextFrame(output: seq<Byte>, offset: nat, id: seq<Byte>) returns (frame: Option<Read>)
    requires offset <= |output|
    ensures frame == ReadFrame(output, offset, id)
  {
    var lineEnd := IndexOf(output, NEWLINE, offset);
    if lineEnd.None? {
      return None;
    }
    var size := HeaderSize(output[offset..lineEnd.value], id);
    if size.None? {
      return None;
    }
    var start := lineEnd.value + 1;
    var end := start + size.value;
    if end >= |output| || output[end] != NEWLINE {
      return None;
    }
    frame := Some(Read(output[start..end], end + 1));
  }

  method ParseBatchBlobs(output: seq<Byte>, ids: seq<seq<Byte>>) returns (result: Option<seq<seq<Byte>>>)
    ensures result == ParseFrom(output, 0, ids)
  {
    var blobs: seq<seq<Byte>> := [];
    var offset: nat, next: nat := 0, 0;
    AfterNone(ParseFrom(output, 0, ids));
    assert ids[0..] == ids;
    while next < |ids|
      invariant next <= |ids| && offset <= |output|
      invariant ParseFrom(output, 0, ids) == After(blobs, ParseFrom(output, offset, ids[next..]))
    {
      assert ids[next..][0] == ids[next];
      var frame := NextFrame(output, offset, ids[next]);
      if frame.None? {
        return None;
      }
      ParseStep(output, offset, ids, next);
      AfterTwice(blobs, [frame.value.blob], ParseFrom(output, frame.value.next, ids[next + 1..]));
      blobs := blobs + [frame.value.blob];
      offset := frame.value.next;
      next := next + 1;
    }
    assert blobs + [] == blobs && ids[next..] == [];
    result := if offset == |output| then Some(blobs) else None;
  }

  lemma ParseStep(output: seq<Byte>, offset: nat, ids: seq<seq<Byte>>, next: nat)
    requires offset <= |output| && next < |ids| && ReadFrame(output, offset, ids[next]).Some?
    ensures var r := ReadFrame(output, offset, ids[next]).value;
            ParseFrom(output, offset, ids[next..]) == After([r.blob], ParseFrom(output, r.next, ids[next + 1..]))
  {
    assert ids[next..][0] == ids[next] && ids[next..][1..] == ids[next + 1..];
  }

  lemma AfterNone(rest: Option<seq<seq<Byte>>>)
    ensures After([], rest) == rest
  {
    if rest.Some? {
      assert [] + rest.value == rest.value;
    }
  }

  lemma AfterTwice(a: seq<seq<Byte>>, b: seq<seq<Byte>>, rest: Option<seq<seq<Byte>>>)
    ensures After(a, After(b, rest)) == After(a + b, rest)
  {
    if rest.Some? {
      assert a + (b + rest.value) == a + b + rest.value;
    }
  }

  // ---------------------------------------------------------------- frames

  /** The stream made of these headers and blobs, in order. */
  function Frames(headers: seq<seq<Byte>>, blobs: seq<seq<Byte>>): seq<Byte>
    requires |headers| == |blobs|
  {
    if headers == [] then []
    else headers[0] + [NEWLINE] + blobs[0] + [NEWLINE] + Frames(headers[1..], blobs[1..])
  }

  /** Every header fits on its line and announces its blob under its object id. */
  ghost predicate Announces(headers: seq<seq<Byte>>, blobs: seq<seq<Byte>>, ids: seq<seq<Byte>>) {
    && |headers| == |blobs| == |ids|
    && forall k | 0 <= k < |ids| :: NEWLINE !in headers[k] && HeaderSize(headers[k], ids[k]) == Some(|blobs[k]|)
  }

  lemma FrameAt(prefix: seq<Byte>, header: seq<Byte>, blob: seq<Byte>, rest: seq<Byte>, id: seq<Byte>)
    requires NEWLINE !in header && HeaderSize(header, id) == Some(|blob|)
    ensures var output := prefix + (header + [NEWLINE] + blob + [NEWLINE] + rest);
            var next := prefix + header + [NEWLINE] + blob + [NEWLINE];
            output == next + rest && ReadFrame(output, |prefix|, id) == Some(Read(blob, |next|))
  {
    var output := prefix + (header + [NEWLINE] + blob + [NEWLINE] + rest);
    var lineEnd := |prefix| + |header|;
    assert output[|prefix|..lineEnd] == header;
    FirstIndex(output, NEWLINE, |prefix|, lineEnd);
    assert output[lineEnd + 1..lineEnd + 1 + |blob|] == blob;
  }

  lemma RestAnnounced(headers: seq<seq<Byte>>, blobs: seq<seq<Byte>>, ids: seq<seq<Byte>>)
    requires Announces(headers, blobs, ids) && ids != []
    ensures Announces(headers[1..], blobs[1..], ids[1..])
  {
    assert forall k | 0 <= k < |ids| - 1 ::
           headers[1..][k] == headers[k + 1] && blobs[1..][k] == blobs[k + 1] && ids[1..][k] == ids[k + 1];
  }

  lemma OneMoreParsed(output: seq<Byte>, offset: nat, ids: seq<seq<Byte>>, r: Read, rest: seq<seq<Byte>>)
    requires offset <= |output| && ids != [] && ReadFrame(output, offset, ids[0]) == Some(r)
    requires r.next <= |output| && ParseFrom(output, r.next, ids[1..]) == Some(rest)
    ensures ParseFrom(output, offset, ids) == Some([r.blob] + rest)
  {}

  /** Whatever bytes the blobs hold, a stream of frames is parsed back into them. */
  lemma {:induction false} FramesAreParsed(prefix: seq<Byte>, headers: seq<seq<Byte>>, blobs: seq<seq<Byte>>,
      ids: seq<seq<Byte>>)
    requires Announces(headers, blobs, ids)
    ensures ParseFrom(prefix + Frames(headers, blobs), |prefix|, ids) == Some(blobs)
    decreases |ids|
  {
    if ids == [] {
      assert prefix + Frames(headers, blobs) == prefix;
    } else {
      var next := prefix + headers[0] + [NEWLINE] + blobs[0] + [NEWLINE];
      var rest := Frames(headers[1..], blobs[1..]);
      FrameAt(prefix, headers[0], blobs[0], rest, ids[0]);
      RestAnnounced(headers, blobs, ids);
      FramesAreParsed(next, headers[1..], blobs[1..], ids[1..]);
      OneMoreParsed(next + rest, |prefix|, ids, Read(blobs[0], |next|), blobs[1..]);
      assert [blobs[0]] + blobs[1..] == blobs;
    }
  }

  /** One step of an accepting parse reads one announced frame. */
  lemma ReadIsFrame(output: seq<Byte>, offset: nat, id: seq<Byte>) returns (header: seq<Byte>)
    requires offset <= |output| && ReadFrame(output, offset, id).Some?
    ensures var r := ReadFrame(output, offset, id).value;
            && NEWLINE !in header && HeaderSize(header, id) == Some(|r.blob|)
            && output[offset..] == header + [NEWLINE] + r.blob + [NEWLINE] + output[r.next..]
  {
    var lineEnd := IndexOf(output, NEWLINE, offset).value;
    header := output[offset..lineEnd];
  }

  /** Whenever the parser accepts, the stream is tiled by frames, in entry order, with no byte left over. */
  lemma {:induction false} ParsedIsTiled(output: seq<Byte>, offset: nat, ids: seq<seq<Byte>>)
    returns (headers: seq<seq<Byte>>)
    requires offset <= |output| && ParseFrom(output, offset, ids).Some?
    ensures Announces(headers, ParseFrom(output, offset, ids).value, ids)
    ensures output[offset..] == Frames(headers, ParseFrom(output, offset, ids).value)
    decreases |ids|
  {
    if ids == [] {
      headers := [];
    } else {
      var header := ReadIsFrame(output, offset, ids[0]);
      var r := ReadFrame(output, offset, ids[0]).value;
      var rest := ParsedIsTiled(output, r.next, ids[1..]);
      headers := [header] + rest;
      var blobs := ParseFrom(output, offset, ids).value;
      assert blobs[0] == r.blob && blobs[1..] == ParseFrom(output, r.next, ids[1..]).value;
      TiledStep(header, rest, blobs, ids);
    }
  }

  lemma TiledStep(header: seq<Byte>, rest: seq<seq<Byte>>, blobs: seq<seq<Byte>>, ids: seq<seq<Byte>>)
    requires ids != [] && blobs != [] && Announces(rest, blobs[1..], ids[1..])
    requires NEWLINE !in header && HeaderSize(header, ids[0]) == Some(|blobs[0]|)
    ensures Announces([header] + rest, blobs, ids)
    ensures Frames([header] + rest, blobs) == header + [NEWLINE] + blobs[0] + [NEWLINE] + Frames(rest, blobs[1..])
  {
    var headers := [header] + rest;
    assert headers[1..] == rest;
    forall k | 0 <= k < |ids| ensures NEWLINE !in headers[k] && HeaderSize(headers[k], ids[k]) == Some(|blobs[k]|) {
      if k > 0 {
        assert headers[k] == rest[k - 1] && ids[k] == ids[1..][k - 1] && blobs[k] == blobs[1..][k - 1];
      }
    }
  }

  /** The parser accepts exactly the streams of announced frames, and returns exactly their blobs. */
  lemma ParserAcceptsFramesOnly(output: seq<Byte>, ids: seq<seq<Byte>>, blobs: seq<seq<Byte>>)
    ensures ParseFrom(output, 0, ids) == Some(blobs) <==>
              exists headers :: Announces(headers, blobs, ids) && output == Frames(headers, blobs)
  {
    if ParseFrom(output, 0, ids) == Some(blobs) {
      var headers := ParsedIsTiled(output, 0, ids);
      assert output[0..] == output;
    }
    if headers :| Announces(headers, blobs, ids) && output == Frames(headers, blobs) {
      FramesAreParsed([], headers, blobs, ids);
      assert [] + output == output;
    }
  }

  // ---------------------------------------------------------------- what git prints

  function Header(id: seq<Byte>, size: nat): seq<Byte> {
    id + BLOB + Digits(size)
  }

  function Headers(ids: seq<seq<Byte>>, blobs: seq<seq<Byte>>): (r: seq<seq<Byte>>)
    requires |ids| == |blobs|
    ensures |r| == |ids| && forall k | 0 <= k < |r| :: r[k] == Header(ids[k], |blobs[k]|)
  {
    seq(|ids|, k requires 0 <= k < |ids| => Header(ids[k], |blobs[k]|))
  }

  lemma HeaderText(id: seq<Byte>, digits: seq<Byte>)
    requires ObjectId(id) && forall d <- digits :: IsDigit(d, 10)
    ensures Ascii(id + BLOB + digits) == id + BLOB + digits && NEWLINE !in id + BLOB + digits
  {
    var header := id + BLOB + digits;
    forall i | 0 <= i < |header| ensures header[i] % 128 == header[i] && header[i] != NEWLINE {
      assert header[i] in id || header[i] in BLOB || header[i] in digits;
    }
  }

  lemma HeaderParts(id: seq<Byte>, digits: seq<Byte>)
    ensures var header := id + BLOB + digits;
            header[..|id|] == id && header[|id|..|id| + 6] == BLOB && header[|id| + 6..] == digits
  {}

  lemma HeaderReadBack(id: seq<Byte>, size: nat)
    requires ObjectId(id) && size <= MAX_SAFE_INTEGER
    ensures HeaderSize(Header(id, size), id) == Some(size) && NEWLINE !in Header(id, size)
  {
    HeaderText(id, Digits(size));
    HeaderParts(id, Digits(size));
    ValueOfDigits(size);
  }

  /** Parsing what git prints for any list of objects gives their blobs back, whatever bytes they hold. */
  lemma PrintedBlobsReadBack(ids: seq<seq<Byte>>, blobs: seq<seq<Byte>>)
    requires |ids| == |blobs| && forall id <- ids :: ObjectId(id)
    requires forall blob <- blobs :: |blob| <= MAX_SAFE_INTEGER
    ensures ParseFrom(Frames(Headers(ids, blobs), blobs), 0, ids) == Some(blobs)
  {
    forall k | 0 <= k < |ids|
      ensures NEWLINE !in Headers(ids, blobs)[k] && HeaderSize(Headers(ids, blobs)[k], ids[k]) == Some(|blobs[k]|)
    {
      HeaderReadBack(ids[k], |blobs[k]|);
    }
    FramesAreParsed([], Headers(ids, blobs), blobs, ids);
    assert [] + Frames(Headers(ids, blobs), blobs) == Frames(Headers(ids, blobs), blobs);
  }
}
