/** Reading a TAR archive within the publication limits, and the ustar layout it reads back. */
module TarArchive {
  import opened Optional
  import opened ByteText

  const MAX_ARTIFACT_BYTES: nat := 25 * 1024 * 1024
  const MAX_ARCHIVE_ENTRY_BYTES: nat := 5 * 1024 * 1024
  const MAX_ARCHIVE_ENTRIES: nat := 2000

  const NUL: Byte := 0
  const SLASH: Byte := 0x2f
  const BACKSLASH: Byte := 0x5c
  const DOT: Byte := 0x2e
  const COLON: Byte := 0x3a
  const MINUS: Byte := 0x2d
  const PLUS: Byte := 0x2b

  // ---------------------------------------------------------------- paths

  function Slashed(path: seq<Byte>): (r: seq<Byte>)
    ensures |r| == |path| && forall i | 0 <= i < |r| :: r[i] == if path[i] == BACKSLASH then SLASH else path[i]
  {
    seq(|path|, i requires 0 <= i < |path| => if path[i] == BACKSLASH then SLASH else path[i])
  }

  /** split('/'), then only the components that are not empty. */
  function Components(path: seq<Byte>): seq<seq<Byte>>
    decreases |path|
  {
    if path == [] then []
    else if path[0] == SLASH then Components(path[1..])
    else [path[..Run(path)]] + Components(path[Run(path)..])
  }

  lemma {:induction false} ComponentsShape(path: seq<Byte>)
    ensures forall c <- Components(path) :: c != [] && SLASH !in c && forall b <- c :: b in path
    decreases |path|
  {
    if path != [] {
      if path[0] == SLASH {
        ComponentsShape(path[1..]);
      } else {
        assert path[..Run(path)][0] == path[0];
        ComponentsShape(path[Run(path)..]);
      }
    }
  }

  /** The length of the component a path starts with. */
  function Run(path: seq<Byte>): (n: nat)
    ensures n <= |path| && SLASH !in path[..n]
    ensures n < |path| ==> path[n] == SLASH
    ensures path != [] && path[0] != SLASH ==> n > 0
  {
    if path == [] || path[0] == SLASH then 0
    else
      var n := Run(path[1..]) + 1;
      assert path[..n] == [path[0]] + path[1..][..n - 1];
      n
  }

  function Join(components: seq<seq<Byte>>): seq<Byte> {
    if components == [] then []
    else if |components| == 1 then components[0]
    else components[0] + [SLASH] + Join(components[1..])
  }

  predicate Letter(b: Byte) {
    0x41 <= b <= 0x5a || 0x61 <= b <= 0x7a
  }

  predicate DriveLetter(path: seq<Byte>) {
    |path| >= 2 && Letter(path[0]) && path[1] == COLON
  }

  predicate Dots(component: seq<Byte>) {
    component == [DOT] || component == [DOT, DOT]
  }

  /** safeArchivePath; None is its error. */
  function SafeArchivePath(input: seq<Byte>): Option<seq<Byte>> {
    var path := Slashed(input);
    var components := Components(path);
    if (path != [] && path[0] == SLASH) || DriveLetter(path) || components == [] || exists c <- components :: Dots(c)
    then None
    else Some(Join(components))
  }

  /** A relative path of ordinary components, in its normal form. */
  ghost predicate SafePath(path: seq<Byte>) {
    && path != [] && path[0] != SLASH && !DriveLetter(path) && BACKSLASH !in path
    && (forall c <- Components(path) :: !Dots(c))
    && Join(Components(path)) == path
  }

  lemma {:induction false} RunOf(component: seq<Byte>, rest: seq<Byte>)
    requires SLASH !in component && (rest == [] || rest[0] == SLASH)
    ensures Run(component + rest) == |component|
  {
    if component == [] {
      assert component + rest == rest;
    } else {
      assert (component + rest)[1..] == component[1..] + rest;
      RunOf(component[1..], rest);
    }
  }

  /** Splitting a joined list of components gives the list back. */
  lemma {:induction false} ComponentsOfJoin(components: seq<seq<Byte>>)
    requires forall c <- components :: c != [] && SLASH !in c
    ensures Components(Join(components)) == components
  {
    if components != [] {
      var c := components[0];
      assert c in components;
      if |components| == 1 {
        RunOf(c, []);
        assert c + [] == c && c[..|c|] == c && c[|c|..] == [];
        assert components == [c];
      } else {
        var rest := Join(components[1..]);
        var path := Join(components);
        assert forall x <- components[1..] :: x in components;
        ComponentsOfJoin(components[1..]);
        RunOf(c, [SLASH] + rest);
        assert path == c + ([SLASH] + rest);
        assert path[0] == c[0] && c[0] in c;
        assert path[..|c|] == c && path[|c|..] == [SLASH] + rest;
        assert ([SLASH] + rest)[1..] == rest;
        assert [c] + components[1..] == components;
      }
    }
  }

  lemma {:induction false} JoinBytes(components: seq<seq<Byte>>, b: Byte)
    requires b in Join(components) && b != SLASH
    ensures exists c <- components :: b in c
  {
    if components != [] {
      assert components[0] in components;
      if |components| > 1 && b !in components[0] {
        JoinBytes(components[1..], b);
        var c :| c in components[1..] && b in c;
        assert c in components;
      }
    }
  }

  lemma JoinStarts(components: seq<seq<Byte>>)
    requires components != [] && components[0] != []
    ensures Join(components) != [] && Join(components)[0] == components[0][0]
    ensures |components[0]| > 1 ==> |Join(components)| > 1 && Join(components)[1] == components[0][1]
    ensures |components[0]| == 1 && |Join(components)| > 1 ==> Join(components)[1] == SLASH
  {}

  /** What safeArchivePath returns is always a safe normal path, and normalizing again changes nothing. */
  lemma SafeArchivePathIsSafe(input: seq<Byte>)
    requires SafeArchivePath(input).Some?
    ensures SafePath(SafeArchivePath(input).value)
    ensures SafeArchivePath(SafeArchivePath(input).value) == SafeArchivePath(input)
  {
    var path, components := Slashed(input), Components(Slashed(input));
    var result := Join(components);
    ComponentsShape(path);
    ComponentsOfJoin(components);
    assert components[0] in components;
    JoinStarts(components);
    FirstComponent(path);
    if BACKSLASH in result {
      JoinBytes(components, BACKSLASH);
      assert false;
    }
    NoBackslashUnchanged(result);
  }

  lemma FirstComponent(path: seq<Byte>)
    requires path != [] && path[0] != SLASH
    ensures Components(path) != [] && Components(path)[0] == path[..Run(path)]
  {}

  lemma NoBackslashUnchanged(path: seq<Byte>)
    requires BACKSLASH !in path
    ensures Slashed(path) == path
  {
    forall i | 0 <= i < |path| ensures Slashed(path)[i] == path[i] {
      assert path[i] in path;
    }
  }

  lemma SafePathIsKept(path: seq<Byte>)
    requires SafePath(path)
    ensures SafeArchivePath(path) == Some(path)
  {
    NoBackslashUnchanged(path);
  }

  // ---------------------------------------------------------------- header fields

  function UntilNul(bytes: seq<Byte>): (r: seq<Byte>)
    ensures r <= bytes && NUL !in r
  {
    if bytes == [] || bytes[0] == NUL then []
    else
      var rest := UntilNul(bytes[1..]);
      assert bytes == [bytes[0]] + bytes[1..];
      [bytes[0]] + rest
  }

  predicate Blank(b: Byte) {
    b == SPACE || 9 <= b <= 13
  }

  function TrimLeft(text: seq<Byte>): seq<Byte> {
    if text != [] && Blank(text[0]) then TrimLeft(text[1..]) else text
  }

  function TrimRight(text: seq<Byte>): seq<Byte> {
    if text != [] && Blank(text[|text| - 1]) then TrimRight(text[..|text| - 1]) else text
  }

  /** The longest prefix of octal digits. */
  function OctalPrefix(text: seq<Byte>): (r: seq<Byte>)
    ensures r <= text && forall d <- r :: IsDigit(d, 8)
  {
    if text == [] || !IsDigit(text[0], 8) then []
    else
      assert text == [text[0]] + text[1..];
      [text[0]] + OctalPrefix(text[1..])
  }

  /** parseInt(text, 8), where None is NaN; twelve octal digits are always a safe integer. */
  function ParseOctal(text: seq<Byte>): Option<int> {
    var signed := text != [] && (text[0] == MINUS || text[0] == PLUS);
    var digits := OctalPrefix(if signed then text[1..] else text);
    if digits == [] then None
    else
      var value: int := Value(digits, 8);
      Some(if signed && text[0] == MINUS then -value else value)
  }

  function SizeField(field: seq<Byte>): Option<nat> {
    var text := TrimRight(TrimLeft(UntilNul(Ascii(field))));
    var size := if text == [] then Some(0) else ParseOctal(text);
    if size.Some? && size.value >= 0 then Some(size.value) else None
  }

  function EntryPath(header: seq<Byte>): seq<Byte>
    requires |header| == 512
  {
    var name, prefix := UntilNul(header[..100]), UntilNul(header[345..500]);
    if prefix != [] then prefix + [SLASH] + name else name
  }

  // ---------------------------------------------------------------- the reader

  datatype Entry = Entry(path: seq<Byte>, bytes: seq<Byte>)

  datatype TarError = SizeInvalid | PathUnsafe | LinkForbidden | TypeUnsupported | TooLarge | Truncated

  datatype TarResult = TarFailed(error: TarError) | Entries(list: seq<Entry>)

  function Blocks(size: nat): nat {
    (size + 511) / 512 * 512
  }

  /** What one header announces, with the checks in the order they are made. */
  datatype Announced = Bad(error: TarError) | Directory(size: nat) | Regular(path: seq<Byte>, size: nat)

  function ReadHeader(header: seq<Byte>): Announced
    requires |header| == 512
  {
    var size, path, kind := SizeField(header[124..136]), SafeArchivePath(EntryPath(header)), header[156];
    if size.None? then Bad(SizeInvalid)
    else if path.None? then Bad(PathUnsafe)
    else if kind == ZERO + 2 || kind == ZERO + 1 then Bad(LinkForbidden)
    else if kind == ZERO + 5 then Directory(size.value)
    else if kind == NUL || kind == ZERO then Regular(path.value, size.value)
    else Bad(TypeUnsupported)
  }

  function TotalBytes(list: seq<Entry>): nat {
    if list == [] then 0 else TotalBytes(list[..|list| - 1]) + |list[|list| - 1].bytes|
  }

  predicate ZeroBlock(block: seq<Byte>) {
    forall b <- block :: b == 0
  }

  /** One turn of the loop. */
  datatype Turn = Ends | Fails(error: TarError) | Skips(next: nat) | Takes(entry: Entry, next: nat)

  function Consider(announced: Announced, archive: seq<Byte>, data: nat, count: nat, total: nat): (t: Turn)
    ensures t.Skips? || t.Takes? ==> data <= t.next
  {
    match announced
    case Bad(error) => Fails(error)
    case Directory(size) => Skips(data + Blocks(size))
    case Regular(path, size) =>
      if size > MAX_ARCHIVE_ENTRY_BYTES || total + size > MAX_ARTIFACT_BYTES || count >= MAX_ARCHIVE_ENTRIES
      then Fails(TooLarge)
      else if data + size > |archive| then Fails(Truncated)
      else Takes(Entry(path, archive[data..data + size]), data + Blocks(size))
  }

  /** What is made of a header block; no reader below looks at blocks of another size. */
  function Announce(block: seq<Byte>): Announced {
    if |block| == 512 then ReadHeader(block) else Bad(Truncated)
  }

  type HeaderReader = seq<Byte> -> Announced

  function ReadEntry(h: HeaderReader, archive: seq<Byte>, offset: nat, count: nat, total: nat): (t: Turn)
    ensures t.Skips? || t.Takes? ==> offset < t.next && offset < |archive|
  {
    if offset + 512 > |archive| || ZeroBlock(archive[offset..offset + 512]) then Ends
    else Consider(h(archive[offset..offset + 512]), archive, offset + 512, count, total)
  }

  /** The entries from an offset on, after those in `read`, for any way to read headers. */
  function ReadFrom(h: HeaderReader, archive: seq<Byte>, offset: nat, read: seq<Entry>): TarResult
    decreases |archive| - offset
  {
    match ReadEntry(h, archive, offset, |read|, TotalBytes(read))
    case Ends => Entries(read)
    case Fails(error) => TarFailed(error)
    case Skips(next) => ReadFrom(h, archive, next, read)
    case Takes(entry, next) => ReadFrom(h, archive, next, read + [entry])
  }

  lemma TotalGrows(list: seq<Entry>, entry: Entry)
    ensures TotalBytes(list + [entry]) == TotalBytes(list) + |entry.bytes|
  {
    assert (list + [entry])[..|list|] == list;
  }

  /** tarEntries */
  function ReadArchive(archive: seq<Byte>): TarResult {
    ReadFrom(Announce, archive, 0, [])
  }

  /** The part of the loop body after the header has been read. */
  method TakeEntry(announced: Announced, archive: seq<Byte>, data: nat, count: nat, total: nat) returns (turn: Turn)
    ensures turn == Consider(announced, archive, data, count, total)
  {
    if announced.Bad? {
      return Fails(announced.error);
    }
    var size := announced.size;
    if announced.Directory? {
      return Skips(data + Blocks(size));
    }
    if size > MAX_ARCHIVE_ENTRY_BYTES || total + size > MAX_ARTIFACT_BYTES || count >= MAX_ARCHIVE_ENTRIES {
      return Fails(TooLarge);
    }
    if data + size > |archive| {
      return Fails(Truncated);
    }
    turn := Takes(Entry(announced.path, archive[data..data + size]), data + Blocks(size));
  }

  method NextEntry(archive: seq<Byte>, offset: nat, count: nat, total: nat) returns (turn: Turn)
    ensures turn == ReadEntry(Announce, archive, offset, count, total)
  {
    if offset + 512 > |archive| {
      return Ends;
    }
    var header := archive[offset..offset + 512];
    if ZeroBlock(header) {
      return Ends;
    }
    turn := TakeEntry(Announce(header), archive, offset + 512, count, total);
  }

  method TarEntries(archive: seq<Byte>) returns (result: TarResult)
    ensures result == ReadArchive(archive)
  {
    var output: seq<Entry> := [];
    var offset: nat, totalBytes: nat := 0, 0;
    while true
      invariant totalBytes == TotalBytes(output)
      invariant ReadArchive(archive) == ReadFrom(Announce, archive, offset, output)
      decreases |archive| - offset
    {
      var turn := NextEntry(archive, offset, |output|, totalBytes);
      match turn
      case Ends => return Entries(output);
      case Fails(error) => return TarFailed(error);
      case Skips(next) => offset := next;
      case Takes(entry, next) =>
        TotalGrows(output, entry);
        output, totalBytes, offset := output + [entry], totalBytes + |entry.bytes|, next;
    }
  }

  // ---------------------------------------------------------------- any input

  ghost predicate WithinLimits(list: seq<Entry>) {
    && |list| <= MAX_ARCHIVE_ENTRIES
    && TotalBytes(list) <= MAX_ARTIFACT_BYTES
    && forall i | 0 <= i < |list| :: |list[i].bytes| <= MAX_ARCHIVE_ENTRY_BYTES
  }

  lemma TakenMeans(h: HeaderReader, archive: seq<Byte>, offset: nat, count: nat, total: nat)
    requires ReadEntry(h, archive, offset, count, total).Takes?
    ensures offset + 512 <= |archive|
    ensures var entry := ReadEntry(h, archive, offset, count, total).entry;
            && h(archive[offset..offset + 512]) == Regular(entry.path, |entry.bytes|)
            && |entry.bytes| <= MAX_ARCHIVE_ENTRY_BYTES && total + |entry.bytes| <= MAX_ARTIFACT_BYTES
            && count < MAX_ARCHIVE_ENTRIES
  {}

  lemma TakenWithinLimits(read: seq<Entry>, entry: Entry)
    requires WithinLimits(read)
    requires |entry.bytes| <= MAX_ARCHIVE_ENTRY_BYTES && TotalBytes(read) + |entry.bytes| <= MAX_ARTIFACT_BYTES
    requires |read| < MAX_ARCHIVE_ENTRIES
    ensures WithinLimits(read + [entry])
  {
    TotalGrows(read, entry);
  }

  lemma TakenReadsOn(h: HeaderReader, archive: seq<Byte>, offset: nat, read: seq<Entry>)
    requires ReadEntry(h, archive, offset, |read|, TotalBytes(read)).Takes?
    ensures var turn := ReadEntry(h, archive, offset, |read|, TotalBytes(read));
            ReadFrom(h, archive, offset, read) == ReadFrom(h, archive, turn.next, read + [turn.entry])
  {}

  lemma {:induction false} LoopStaysWithinLimits(h: HeaderReader, archive: seq<Byte>, offset: nat, read: seq<Entry>)
    requires WithinLimits(read)
    ensures var r := ReadFrom(h, archive, offset, read); r.Entries? ==> WithinLimits(r.list)
    decreases |archive| - offset
  {
    match ReadEntry(h, archive, offset, |read|, TotalBytes(read))
    case Ends =>
    case Fails(_) =>
    case Skips(next) => LoopStaysWithinLimits(h, archive, next, read);
    case Takes(entry, next) =>
      TakenMeans(h, archive, offset, |read|, TotalBytes(read));
      TakenWithinLimits(read, entry);
      TakenReadsOn(h, archive, offset, read);
      LoopStaysWithinLimits(h, archive, next, read + [entry]);
  }

  /** On any input at all, what is returned stays within the limits. */
  lemma ReaderStaysWithinLimits(archive: seq<Byte>)
    ensures ReadArchive(archive).Entries? ==> WithinLimits(ReadArchive(archive).list)
  {
    LoopStaysWithinLimits(Announce, archive, 0, []);
  }

  ghost predicate PathsSafe(list: seq<Entry>) {
    forall i | 0 <= i < |list| :: SafePath(list[i].path)
  }

  ghost predicate AnnouncesSafePaths(h: HeaderReader) {
    forall block :: h(block).Regular? ==> SafePath(h(block).path)
  }

  lemma HeadersAnnounceSafePaths()
    ensures AnnouncesSafePaths(Announce)
  {
    forall block | Announce(block).Regular? ensures SafePath(Announce(block).path) {
      SafeArchivePathIsSafe(EntryPath(block));
    }
  }

  lemma OneMoreSafe(read: seq<Entry>, entry: Entry)
    requires PathsSafe(read) && SafePath(entry.path)
    ensures PathsSafe(read + [entry])
  {}

  lemma {:induction false} LoopReturnsSafePaths(h: HeaderReader, archive: seq<Byte>, offset: nat, read: seq<Entry>)
    requires AnnouncesSafePaths(h) && PathsSafe(read)
    ensures var r := ReadFrom(h, archive, offset, read); r.Entries? ==> PathsSafe(r.list)
    decreases |archive| - offset
  {
    match ReadEntry(h, archive, offset, |read|, TotalBytes(read))
    case Ends =>
    case Fails(_) =>
    case Skips(next) => LoopReturnsSafePaths(h, archive, next, read);
    case Takes(entry, next) =>
      TakenMeans(h, archive, offset, |read|, TotalBytes(read));
      OneMoreSafe(read, entry);
      TakenReadsOn(h, archive, offset, read);
      LoopReturnsSafePaths(h, archive, next, read + [entry]);
  }

  /** On any input at all, every returned path is a relative one without dot components. */
  lemma ReaderReturnsSafePaths(archive: seq<Byte>)
    ensures ReadArchive(archive).Entries? ==> PathsSafe(ReadArchive(archive).list)
  {
    HeadersAnnounceSafePaths();
    LoopReturnsSafePaths(Announce, archive, 0, []);
  }

  // ---------------------------------------------------------------- the ustar layout

  function Pad(bytes: seq<Byte>, width: nat): (r: seq<Byte>)
    requires |bytes| <= width
    ensures |r| == width
  {
    bytes + Zeros(width - |bytes|)
  }

  function Zeros(n: nat): (r: seq<Byte>)
    ensures |r| == n && forall b <- r :: b == 0
  {
    seq(n, _ => 0)
  }

  /** A regular file with its path split as the ustar header holds it. */
  datatype File = File(prefix: seq<Byte>, name: seq<Byte>, bytes: seq<Byte>) {
    function Path(): seq<Byte> {
      if prefix != [] then prefix + [SLASH] + name else name
    }

    ghost predicate Printable() {
      && |name| <= 100 && |prefix| <= 155 && NUL !in name && NUL !in prefix
      && SafePath(Path()) && |bytes| <= MAX_ARCHIVE_ENTRY_BYTES
    }
  }

  /** Eleven octal digits with leading zeros. */
  function OctalField(size: nat, width: nat): (r: seq<Byte>)
    ensures |r| == width && forall d <- r :: IsDigit(d, 8)
  {
    if width == 0 then [] else OctalField(size / 8, width - 1) + [ZERO + size % 8]
  }

  /** `header` is a ustar header for the file; the fields the reader ignores may hold anything. */
  ghost predicate Describes(header: seq<Byte>, f: File)
    requires |f.name| <= 100 && |f.prefix| <= 155
  {
    && |header| == 512
    && header[..100] == Pad(f.name, 100)
    && header[124..136] == OctalField(|f.bytes|, 11) + [NUL]
    && header[156] in {ZERO, NUL}
    && header[345..500] == Pad(f.prefix, 155)
  }

  /** One file: its header, its bytes, and zeros up to the next block. */
  function Printed(header: seq<Byte>, f: File): seq<Byte> {
    header + f.bytes + Zeros(Blocks(|f.bytes|) - |f.bytes|)
  }

  /** The files in order. */
  function Print(headers: seq<seq<Byte>>, files: seq<File>): seq<Byte>
    requires |headers| == |files|
  {
    if files == [] then [] else Printed(headers[0], files[0]) + Print(headers[1..], files[1..])
  }

  ghost predicate PrintedFrom(headers: seq<seq<Byte>>, files: seq<File>) {
    && |headers| == |files|
    && forall k | 0 <= k < |files| :: files[k].Printable() && Describes(headers[k], files[k])
  }

  function Contents(files: seq<File>): (r: seq<Entry>)
    ensures |r| == |files|
  {
    if files == [] then [] else [Entry(files[0].Path(), files[0].bytes)] + Contents(files[1..])
  }

  lemma {:induction false} UntilNulOfPad(bytes: seq<Byte>, width: nat)
    requires |bytes| <= width && NUL !in bytes
    ensures UntilNul(Pad(bytes, width)) == bytes
  {
    var padded := Pad(bytes, width);
    if bytes == [] {
      if width > 0 {
        assert padded[0] == 0;
      }
    } else {
      assert bytes[0] in bytes && padded[0] == bytes[0];
      assert padded[1..] == Pad(bytes[1..], width - 1);
      UntilNulOfPad(bytes[1..], width - 1);
    }
  }

  lemma {:induction false} OctalFieldValue(size: nat, width: nat)
    requires size < Pow8(width)
    ensures Value(OctalField(size, width), 8) == size
  {
    if width > 0 {
      var r := OctalField(size, width);
      OctalFieldValue(size / 8, width - 1);
      assert r[..|r| - 1] == OctalField(size / 8, width - 1);
    }
  }

  function Pow8(n: nat): nat {
    if n == 0 then 1 else 8 * Pow8(n - 1)
  }

  lemma {:induction false} AllDigitsKept(digits: seq<Byte>)
    requires forall d <- digits :: IsDigit(d, 8)
    ensures OctalPrefix(digits) == digits
  {
    if digits != [] {
      AllDigitsKept(digits[1..]);
    }
  }

  lemma OctalText(digits: seq<Byte>)
    requires |digits| == 11 && forall d <- digits :: IsDigit(d, 8)
    ensures UntilNul(Ascii(digits + [NUL])) == digits
  {
    var field := digits + [NUL];
    forall i | 0 <= i < |field| ensures Ascii(field)[i] == field[i] {
      assert i < 11 ==> digits[i] in digits;
    }
    assert Ascii(field) == field;
    assert field == Pad(digits, 12) by {
      assert Zeros(1) == [NUL];
    }
    UntilNulOfPad(digits, 12);
  }

  lemma NothingToTrim(text: seq<Byte>)
    requires text != [] && !Blank(text[0]) && !Blank(text[|text| - 1])
    ensures TrimRight(TrimLeft(text)) == text
  {}

  lemma SizeOfDigits(digits: seq<Byte>)
    requires |digits| == 11 && forall d <- digits :: IsDigit(d, 8)
    ensures SizeField(digits + [NUL]) == Some(Value(digits, 8))
  {
    OctalText(digits);
    assert digits[0] in digits && digits[10] in digits;
    NothingToTrim(digits);
    AllDigitsKept(digits);
  }

  /** The size field reads back every size below 8 to the eleventh. */
  lemma SizeReadsBack(size: nat)
    requires size <= MAX_ARCHIVE_ENTRY_BYTES
    ensures SizeField(OctalField(size, 11) + [NUL]) == Some(size)
  {
    SizeOfDigits(OctalField(size, 11));
    assert Pow8(11) == 8589934592;
    OctalFieldValue(size, 11);
  }

  lemma HeaderReadsBack(header: seq<Byte>, f: File)
    requires f.Printable() && Describes(header, f)
    ensures !ZeroBlock(header) && ReadHeader(header) == Regular(f.Path(), |f.bytes|)
  {
    UntilNulOfPad(f.name, 100);
    UntilNulOfPad(f.prefix, 155);
    SizeReadsBack(|f.bytes|);
    SafePathIsKept(f.Path());
    assert header[124] == header[124..136][0] == OctalField(|f.bytes|, 11)[0];
    assert OctalField(|f.bytes|, 11)[0] in OctalField(|f.bytes|, 11);
    assert header[124] in header;
  }

  lemma PrintedParts(header: seq<Byte>, f: File, rest: seq<Byte>)
    requires |header| == 512
    ensures var bytes := Printed(header, f) + rest;
            && |Printed(header, f)| == 512 + Blocks(|f.bytes|)
            && bytes[0..512] == header
            && bytes[512..512 + |f.bytes|] == f.bytes
            && bytes[512 + Blocks(|f.bytes|)..] == rest
  {}

  lemma SliceOfSuffix(archive: seq<Byte>, offset: nat, suffix: seq<Byte>, from: nat, to: nat)
    requires offset <= |archive| && archive[offset..] == suffix && from <= to <= |suffix|
    ensures offset + to <= |archive|
    ensures archive[offset + from..offset + to] == suffix[from..to] && archive[offset + from..] == suffix[from..]
  {
    assert archive[offset..][from..to] == archive[offset + from..offset + to];
    assert archive[offset..][from..] == archive[offset + from..];
  }

  /** Where the parts of the file that starts at `offset` lie. */
  lemma FileAt(archive: seq<Byte>, offset: nat, header: seq<Byte>, f: File, rest: seq<Byte>)
    requires |header| == 512 && offset <= |archive| && archive[offset..] == Printed(header, f) + rest
    ensures offset + 512 + Blocks(|f.bytes|) <= |archive|
    ensures archive[offset..offset + 512] == header
    ensures archive[offset + 512..offset + 512 + |f.bytes|] == f.bytes
    ensures archive[offset + 512 + Blocks(|f.bytes|)..] == rest
  {
    var bytes := Printed(header, f) + rest;
    PrintedParts(header, f, rest);
    SliceOfSuffix(archive, offset, bytes, 0, 512);
    SliceOfSuffix(archive, offset, bytes, 512, 512 + |f.bytes|);
    SliceOfSuffix(archive, offset, bytes, 512 + Blocks(|f.bytes|), |bytes|);
  }

  /** A header that the header reader understands as this file. */
  ghost predicate Reads(h: HeaderReader, header: seq<Byte>, f: File) {
    && |header| == 512 && !ZeroBlock(header) && h(header) == Regular(f.Path(), |f.bytes|)
    && |f.bytes| <= MAX_ARCHIVE_ENTRY_BYTES
  }

  lemma EntryTaken(
    h: HeaderReader, archive: seq<Byte>, offset: nat, path: seq<Byte>, bytes: seq<Byte>, count: nat, total: nat)
    requires offset + 512 + |bytes| <= |archive| && !ZeroBlock(archive[offset..offset + 512])
    requires h(archive[offset..offset + 512]) == Regular(path, |bytes|)
    requires archive[offset + 512..offset + 512 + |bytes|] == bytes
    requires |bytes| <= MAX_ARCHIVE_ENTRY_BYTES && count < MAX_ARCHIVE_ENTRIES && total + |bytes| <= MAX_ARTIFACT_BYTES
    ensures ReadEntry(h, archive, offset, count, total) == Takes(Entry(path, bytes), offset + 512 + Blocks(|bytes|))
  {}

  /** The header and the contents of the file lie at `offset`, and its padding fits behind them. */
  ghost predicate LiesAt(archive: seq<Byte>, offset: nat, header: seq<Byte>, f: File) {
    && offset + 512 + |f.bytes| <= offset + 512 + Blocks(|f.bytes|) <= |archive|
    && archive[offset..offset + 512] == header
    && archive[offset + 512..offset + 512 + |f.bytes|] == f.bytes
  }

  /** The reader takes the file that starts at `offset` and goes on behind it. */
  lemma FileRead(h: HeaderReader, archive: seq<Byte>, offset: nat, header: seq<Byte>, f: File, read: seq<Entry>,
      more: seq<Entry>)
    requires Reads(h, header, f) && |read| < MAX_ARCHIVE_ENTRIES && TotalBytes(read) + |f.bytes| <= MAX_ARTIFACT_BYTES
    requires LiesAt(archive, offset, header, f) && more == read + [Entry(f.Path(), f.bytes)]
    ensures ReadFrom(h, archive, offset, read) == ReadFrom(h, archive, offset + 512 + Blocks(|f.bytes|), more)
    ensures TotalBytes(more) == TotalBytes(read) + |f.bytes|
  {
    EntryTaken(h, archive, offset, f.Path(), f.bytes, |read|, TotalBytes(read));
    TakenReadsOn(h, archive, offset, read);
    TotalGrows(read, Entry(f.Path(), f.bytes));
  }

  /** Readable files lie one behind the other from `offset` on, and `tail` behind the last. */
  ghost predicate Laid(
    h: HeaderReader, archive: seq<Byte>, offset: nat, headers: seq<seq<Byte>>, files: seq<File>, tail: seq<Byte>)
    decreases |files|
  {
    && |headers| == |files| && offset <= |archive|
    && (if files == [] then archive[offset..] == tail
        else
          && Reads(h, headers[0], files[0]) && LiesAt(archive, offset, headers[0], files[0])
          && Laid(h, archive, offset + 512 + Blocks(|files[0].bytes|), headers[1..], files[1..], tail))
  }

  lemma FirstPrinted(headers: seq<seq<Byte>>, files: seq<File>, tail: seq<Byte>)
    requires |headers| == |files| && files != []
    ensures Print(headers, files) + tail == Printed(headers[0], files[0]) + (Print(headers[1..], files[1..]) + tail)
  {}

  ghost predicate AllRead(h: HeaderReader, headers: seq<seq<Byte>>, files: seq<File>) {
    |headers| == |files| && forall k | 0 <= k < |files| :: Reads(h, headers[k], files[k])
  }

  lemma RestRead(h: HeaderReader, headers: seq<seq<Byte>>, files: seq<File>)
    requires AllRead(h, headers, files) && files != []
    ensures Reads(h, headers[0], files[0]) && AllRead(h, headers[1..], files[1..])
  {
    forall k | 0 <= k < |files| - 1 ensures Reads(h, headers[1..][k], files[1..][k]) {
      assert files[1..][k] == files[k + 1] && headers[1..][k] == headers[k + 1];
    }
  }

  lemma {:induction false} PrintedIsLaid(
    h: HeaderReader, archive: seq<Byte>, offset: nat, headers: seq<seq<Byte>>, files: seq<File>, tail: seq<Byte>)
    requires AllRead(h, headers, files)
    requires offset <= |archive| && archive[offset..] == Print(headers, files) + tail
    ensures Laid(h, archive, offset, headers, files, tail)
    decreases |files|
  {
    if files == [] {
      assert Print(headers, files) + tail == tail;
    } else {
      RestRead(h, headers, files);
      FirstPrinted(headers, files, tail);
      FileAt(archive, offset, headers[0], files[0], Print(headers[1..], files[1..]) + tail);
      PrintedIsLaid(h, archive, offset + 512 + Blocks(|files[0].bytes|), headers[1..], files[1..], tail);
    }
  }

  lemma TailEnds(h: HeaderReader, archive: seq<Byte>, offset: nat, tail: seq<Byte>, count: nat, total: nat)
    requires offset <= |archive| && archive[offset..] == tail && (|tail| < 512 || ZeroBlock(tail[..512]))
    ensures ReadEntry(h, archive, offset, count, total) == Ends
  {
    if |tail| >= 512 {
      SliceOfSuffix(archive, offset, tail, 0, 512);
    }
  }

  lemma NothingLeft(
    h: HeaderReader, archive: seq<Byte>, offset: nat, headers: seq<seq<Byte>>, files: seq<File>, tail: seq<Byte>,
    read: seq<Entry>, list: seq<Entry>)
    requires files == [] && Laid(h, archive, offset, headers, files, tail) && list == read + Contents(files)
    requires |tail| < 512 || ZeroBlock(tail[..512])
    ensures ReadFrom(h, archive, offset, read) == Entries(list)
  {
    assert list == read;
    TailEnds(h, archive, offset, tail, |read|, TotalBytes(read));
  }

  function Sizes(files: seq<File>): nat {
    if files == [] then 0 else |files[0].bytes| + Sizes(files[1..])
  }

  lemma FirstContents(read: seq<Entry>, files: seq<File>, list: seq<Entry>)
    requires files != [] && list == read + Contents(files)
    ensures list == read + [Entry(files[0].Path(), files[0].bytes)] + Contents(files[1..])
  {
    assert Contents(files) == [Entry(files[0].Path(), files[0].bytes)] + Contents(files[1..]);
  }

  lemma FirstLaid(
    h: HeaderReader, archive: seq<Byte>, offset: nat, headers: seq<seq<Byte>>, files: seq<File>, tail: seq<Byte>)
    returns (next: nat)
    requires files != [] && Laid(h, archive, offset, headers, files, tail)
    ensures headers != [] && FirstLies(h, archive, offset, headers[0], files[0], next)
    ensures Laid(h, archive, next, headers[1..], files[1..], tail)
  {
    next := offset + 512 + Blocks(|files[0].bytes|);
  }

  /** A readable file from `offset` to `next`. */
  ghost predicate FirstLies(h: HeaderReader, archive: seq<Byte>, offset: nat, header: seq<Byte>, f: File, next: nat) {
    Reads(h, header, f) && LiesAt(archive, offset, header, f) && next == offset + 512 + Blocks(|f.bytes|)
  }

  lemma FirstFileRead(
    h: HeaderReader, archive: seq<Byte>, offset: nat, header: seq<Byte>, files: seq<File>, next: nat,
    read: seq<Entry>, list: seq<Entry>) returns (more: seq<Entry>)
    requires files != [] && FirstLies(h, archive, offset, header, files[0], next) && list == read + Contents(files)
    requires |read| + |files| <= MAX_ARCHIVE_ENTRIES && TotalBytes(read) + Sizes(files) <= MAX_ARTIFACT_BYTES
    ensures list == more + Contents(files[1..]) && |more| == |read| + 1
    ensures TotalBytes(more) + Sizes(files[1..]) <= MAX_ARTIFACT_BYTES
    ensures ReadFrom(h, archive, offset, read) == ReadFrom(h, archive, next, more)
  {
    more := read + [Entry(files[0].Path(), files[0].bytes)];
    FirstContents(read, files, list);
    FileRead(h, archive, offset, header, files[0], read, more);
  }

  /** Reading on from the start of a printed list, after `read`, adds exactly the listed files. */
  lemma {:induction false} FilesReadBack(
    h: HeaderReader, archive: seq<Byte>, offset: nat, headers: seq<seq<Byte>>, files: seq<File>, tail: seq<Byte>,
    read: seq<Entry>, list: seq<Entry>)
    requires Laid(h, archive, offset, headers, files, tail) && list == read + Contents(files)
    requires |read| + |files| <= MAX_ARCHIVE_ENTRIES && TotalBytes(read) + Sizes(files) <= MAX_ARTIFACT_BYTES
    requires |tail| < 512 || ZeroBlock(tail[..512])
    ensures ReadFrom(h, archive, offset, read) == Entries(list)
    decreases |files|
  {
    if files == [] {
      NothingLeft(h, archive, offset, headers, files, tail, read, list);
    } else {
      var next := FirstLaid(h, archive, offset, headers, files, tail);
      var more := FirstFileRead(h, archive, offset, headers[0], files, next, read, list);
      FilesReadBack(h, archive, next, headers[1..], files[1..], tail, more, list);
    }
  }

  lemma {:induction false} ContentsTotal(files: seq<File>)
    ensures TotalBytes(Contents(files)) == Sizes(files)
  {
    if files != [] {
      ContentsTotal(files[1..]);
      TotalOfJoined(Entry(files[0].Path(), files[0].bytes), Contents(files[1..]));
    }
  }

  lemma {:induction false} TotalOfJoined(entry: Entry, list: seq<Entry>)
    ensures TotalBytes([entry] + list) == |entry.bytes| + TotalBytes(list)
  {
    var joined := [entry] + list;
    if list == [] {
      assert joined[..|joined| - 1] == [];
    } else {
      assert joined[..|joined| - 1] == [entry] + list[..|list| - 1];
      TotalOfJoined(entry, list[..|list| - 1]);
    }
  }

  lemma PrintedIsRead(headers: seq<seq<Byte>>, files: seq<File>)
    requires PrintedFrom(headers, files)
    ensures AllRead(Announce, headers, files)
  {
    forall k | 0 <= k < |files| ensures Reads(Announce, headers[k], files[k]) {
      HeaderReadsBack(headers[k], files[k]);
    }
  }

  /**
   * Reading back a ustar archive of regular files with safe normal paths and sizes within the limits
   * returns exactly those files, whether it ends at its last block or in a zero block.
   */
  lemma ArchiveReadsBack(headers: seq<seq<Byte>>, files: seq<File>, tail: seq<Byte>)
    requires PrintedFrom(headers, files)
    requires |files| <= MAX_ARCHIVE_ENTRIES && TotalBytes(Contents(files)) <= MAX_ARTIFACT_BYTES
    requires |tail| < 512 || ZeroBlock(tail[..512])
    ensures ReadArchive(Print(headers, files) + tail) == Entries(Contents(files))
  {
    var archive := Print(headers, files) + tail;
    assert [] + Contents(files) == Contents(files) && archive[0..] == archive;
    PrintedIsRead(headers, files);
    PrintedIsLaid(Announce, archive, 0, headers, files, tail);
    ContentsTotal(files);
    FilesReadBack(Announce, archive, 0, headers, files, tail, [], Contents(files));
  }
}
