/**
  The two image-header scanners: the Bridge's (crates/protocol/src/artifacts.rs:140-193)
  and the wrapper's (crates/remote-wrapper/src/artifacts.rs:294-334).
 */
module Images {
  import opened Wrappers
  import opened Bytes

  datatype Media = Png | Jpeg

  datatype Size = Size(width: nat, height: nat)

  datatype Image = Image(media: Media, size: Size)

  const PNG_SIGNATURE: Buffer := [0x89, 0x50, 0x4e, 0x47, 0x0d, 0x0a, 0x1a, 0x0a]

  predicate StartsWith(b: Buffer, prefix: Buffer) {
    |prefix| <= |b| && b[..|prefix|] == prefix
  }

  predicate IsFrameHeader(marker: byte) {
    0xc0 <= marker <= 0xc3 || 0xc5 <= marker <= 0xc7 || 0xc9 <= marker <= 0xcb || 0xcd <= marker <= 0xcf
  }

  predicate Visible(s: Size) {
    s.width != 0 && s.height != 0
  }

  // ---------------------------------------------------------------- the reference scan

  /** The end of a run of 0xFF bytes. */
  function FillEnd(b: Buffer, i: nat): (m: nat)
    requires i <= |b|
    ensures i <= m <= |b|
    ensures m < |b| ==> b[m] != 0xff
    ensures forall k :: i <= k < m ==> b[k] == 0xff
    decreases |b| - i
  {
    if i < |b| && b[i] == 0xff then FillEnd(b, i + 1) else i
  }

  /** What one marker segment says: nothing usable, a size, or where the next one starts. */
  datatype Segment = Stop | Frame(size: Size) | Next(at: nat)

  /** The segment whose marker byte is at `m`. */
  function SegmentAt(b: Buffer, m: nat): (s: Segment)
    requires m <= |b|
    ensures s.Next? ==> m < s.at <= |b|
  {
    if m >= |b| || b[m] == 0xd9 || b[m] == 0xda || m + 3 > |b| then Stop
    else
      var length := FromBigEndian(b[m + 1..m + 3]);
      if length < 2 || m + 1 + length > |b| then Stop
      else if IsFrameHeader(b[m]) && length >= 7
      then Frame(Size(FromBigEndian(b[m + 6..m + 8]), FromBigEndian(b[m + 4..m + 6])))
      else Next(m + 1 + length)
  }

  /** The size in the first frame header reached from `i`. */
  function Scan(b: Buffer, i: nat): Option<Size>
    decreases |b| - i
  {
    if i + 9 >= |b| then None
    else if b[i] != 0xff then Scan(b, i + 1)
    else
      match SegmentAt(b, FillEnd(b, i))
      case Stop => None
      case Frame(size) => Some(size)
      case Next(at) => if at > i then Scan(b, at) else None
  }

  function VisibleOnly(s: Option<Size>): Option<Size> {
    if s.Some? && Visible(s.value) then s else None
  }

  /** What a byte string is an image of. */
  function ImageOf(b: Buffer): Option<Image> {
    if StartsWith(b, PNG_SIGNATURE) && |b| >= 24 then
      var size := Size(FromBigEndian(b[16..20]), FromBigEndian(b[20..24]));
      if Visible(size) then Some(Image(Png, size)) else None
    else if StartsWith(b, [0xff, 0xd8]) && VisibleOnly(Scan(b, 2)).Some? then Some(Image(Jpeg, Scan(b, 2).value))
    else None
  }

  // ---------------------------------------------------------------- the Bridge's scanner

  method BridgeJpegDimensions(b: Buffer) returns (r: Option<Size>)
    ensures r == VisibleOnly(Scan(b, 2))
  {
    var index := 2;
    while index + 9 < |b|
      invariant Scan(b, 2) == Scan(b, index)
      decreases |b| - index
    {
      if b[index] != 0xff {
        index := index + 1;
        continue;
      }
      ghost var start := index;
      while index < |b| && b[index] == 0xff
        invariant start <= index <= |b| && FillEnd(b, start) == FillEnd(b, index)
      {
        index := index + 1;
      }
      if index >= |b| { return None; }
      var marker := b[index];
      index := index + 1;
      if marker == 0xd9 || marker == 0xda { return None; }
      if index + 2 > |b| { return None; }
      var length := FromBigEndian(b[index..index + 2]);
      if length < 2 || index + length > |b| { return None; }
      if IsFrameHeader(marker) && length >= 7 {
        var height := FromBigEndian(b[index + 3..index + 5]);
        var width := FromBigEndian(b[index + 5..index + 7]);
        if width == 0 || height == 0 { return None; }
        return Some(Size(width, height));
      }
      index := index + length;
    }
    return None;
  }

  method BridgeDimensions(b: Buffer) returns (r: Option<Image>)
    ensures r == ImageOf(b)
  {
    if StartsWith(b, PNG_SIGNATURE) && |b| >= 24 {
      var width := FromBigEndian(b[16..20]);
      var height := FromBigEndian(b[20..24]);
      if width == 0 || height == 0 { return None; }
      return Some(Image(Png, Size(width, height)));
    }
    if StartsWith(b, [0xff, 0xd8]) {
      var size := BridgeJpegDimensions(b);
      if size.None? { return None; }
      return Some(Image(Jpeg, size.value));
    }
    return None;
  }

  // ---------------------------------------------------------------- the wrapper's scanner

  method WrapperJpegDimensions(b: Buffer) returns (r: Option<Size>)
    ensures r == Scan(b, 2)
  {
    var index := 2;
    while index + 9 < |b|
      invariant Scan(b, 2) == Scan(b, index)
      decreases |b| - index
    {
      if b[index] != 0xff {
        index := index + 1;
        continue;
      }
      ghost var start := index;
      while index < |b| && b[index] == 0xff
        invariant start <= index <= |b| && FillEnd(b, start) == FillEnd(b, index)
      {
        index := index + 1;
      }
      if index >= |b| { return None; }
      var marker := b[index];
      index := index + 1;
      if marker == 0xd9 || marker == 0xda || index + 2 > |b| { return None; }
      var length := FromBigEndian(b[index..index + 2]);
      if length < 2 || index + length > |b| { return None; }
      if IsFrameHeader(marker) && length >= 7 {
        return Some(Size(FromBigEndian(b[index + 5..index + 7]), FromBigEndian(b[index + 3..index + 5])));
      }
      index := index + length;
    }
    return None;
  }

  method WrapperDimensions(b: Buffer) returns (r: Option<Image>)
    ensures r == ImageOf(b)
  {
    if StartsWith(b, PNG_SIGNATURE) && |b| >= 24 {
      var size := Size(FromBigEndian(b[16..20]), FromBigEndian(b[20..24]));
      return if Visible(size) then Some(Image(Png, size)) else None;
    }
    if StartsWith(b, [0xff, 0xd8]) {
      var size := WrapperJpegDimensions(b);
      if size.None? { return None; }
      return if Visible(size.value) then Some(Image(Jpeg, size.value)) else None;
    }
    return None;
  }

  // ---------------------------------------------------------------- well-formed files are measured

  /** A marker segment as section B.1.1 of ITU-T T.81 writes it, with optional fill bytes. */
  datatype Written = Written(fill: nat, marker: byte, payload: Buffer)

  predicate WellWritten(s: Written) {
    s.marker != 0xff && s.marker != 0xd9 && s.marker != 0xda && |s.payload| + 2 < 0x1_0000
  }

  /** A segment the scan passes over. */
  predicate Skippable(s: Written) {
    WellWritten(s) && (IsFrameHeader(s.marker) ==> |s.payload| < 5)
  }

  predicate AllSkippable(ss: seq<Written>) {
    ss == [] || (Skippable(ss[0]) && AllSkippable(ss[1..]))
  }

  function Fill(n: nat): (f: Buffer)
    ensures |f| == n && forall k :: 0 <= k < n ==> f[k] == 0xff
  {
    seq(n, _ => 0xff)
  }

  function EncodeSegment(s: Written): Buffer {
    Fill(s.fill + 1) + [s.marker] + ToBigEndian(|s.payload| + 2, 2) + s.payload
  }

  function EncodeSegments(ss: seq<Written>): Buffer {
    if ss == [] then [] else EncodeSegment(ss[0]) + EncodeSegments(ss[1..])
  }

  /** The frame header of section B.2.2: precision, lines, samples per line, then the components. */
  datatype FrameHeader = FrameHeader(fill: nat, marker: byte, precision: byte, size: Size, components: Buffer)

  predicate WellFramed(f: FrameHeader) {
    && IsFrameHeader(f.marker) && f.size.width < 0x1_0000 && f.size.height < 0x1_0000
    && 0 < |f.components| < 0x1_0000 - 7
  }

  function FrameSegment(f: FrameHeader): Written {
    Written(f.fill, f.marker,
            [f.precision] + ToBigEndian(f.size.height, 2) + ToBigEndian(f.size.width, 2) + f.components)
  }

  lemma SliceOfTail(b: Buffer, i: nat, t: Buffer, x: nat, y: nat)
    requires i <= |b| && b[i..] == t && x <= y <= |t|
    ensures b[i + x..i + y] == t[x..y] && b[i + x..] == t[x..]
  {
    assert b[i..][x..y] == b[i + x..i + y];
    assert b[i..][x..] == b[i + x..];
  }

  lemma EncodedParts(s: Written, rest: Buffer)
    ensures var t, n := EncodeSegment(s) + rest, s.fill + 1;
      && |t| == n + 3 + |s.payload| + |rest|
      && (forall k :: 0 <= k < n ==> t[k] == 0xff) && t[n] == s.marker
      && t[n + 1..n + 3] == ToBigEndian(|s.payload| + 2, 2)
      && t[n + 3..n + 3 + |s.payload|] == s.payload && t[n + 3 + |s.payload|..] == rest
  {}

  /** Where a written segment's parts lie. */
  lemma SegmentLayout(s: Written, rest: Buffer)
    requires WellWritten(s)
    ensures var b, m := EncodeSegment(s) + rest, s.fill + 1;
      && |b| == m + 3 + |s.payload| + |rest| && b[0] == 0xff && FillEnd(b, 0) == m && b[m] == s.marker
      && FromBigEndian(b[m + 1..m + 3]) == |s.payload| + 2
      && b[m + 3..m + 3 + |s.payload|] == s.payload && b[m + 3 + |s.payload|..] == rest
  {
    EncodedParts(s, rest);
    Widths();
    BigEndianRoundTrip(|s.payload| + 2, 2);
    FillEndsAt(EncodeSegment(s) + rest, s.fill + 1);
  }

  lemma FillEndsAt(b: Buffer, n: nat)
    requires n < |b| && b[n] != 0xff && forall k :: 0 <= k < n ==> b[k] == 0xff
    ensures FillEnd(b, 0) == n
  {}

  lemma SliceOfSlice(b: Buffer, at: nat, p: Buffer, x: nat, y: nat)
    requires at + |p| <= |b| && b[at..at + |p|] == p && x <= y <= |p|
    ensures b[at + x..at + y] == p[x..y]
  {
    forall k | 0 <= k < y - x ensures b[at + x..at + y][k] == p[x..y][k] {
      assert b[at..at + |p|][x + k] == b[at + (x + k)];
    }
  }

  lemma FrameFields(f: FrameHeader)
    requires WellFramed(f)
    ensures var p := FrameSegment(f).payload;
      && |p| == 5 + |f.components|
      && FromBigEndian(p[1..3]) == f.size.height && FromBigEndian(p[3..5]) == f.size.width
  {
    var p := FrameSegment(f).payload;
    assert p[1..3] == ToBigEndian(f.size.height, 2) && p[3..5] == ToBigEndian(f.size.width, 2);
    Widths();
    BigEndianRoundTrip(f.size.height, 2);
    BigEndianRoundTrip(f.size.width, 2);
  }

  lemma FrameSegmentAt(b: Buffer, m: nat, f: FrameHeader)
    requires WellFramed(f)
    requires var p := FrameSegment(f).payload;
      && m + 3 + |p| <= |b| && b[m] == f.marker
      && FromBigEndian(b[m + 1..m + 3]) == |p| + 2 && b[m + 3..m + 3 + |p|] == p
    ensures SegmentAt(b, m) == Frame(f.size)
  {
    var p := FrameSegment(f).payload;
    FrameFields(f);
    SliceOfSlice(b, m + 3, p, 1, 3);
    SliceOfSlice(b, m + 3, p, 3, 5);
  }

  lemma FrameIsRead(f: FrameHeader, rest: Buffer)
    requires WellFramed(f)
    ensures Scan(EncodeSegment(FrameSegment(f)) + rest, 0) == Some(f.size)
  {
    FrameFields(f);
    SegmentLayout(FrameSegment(f), rest);
    FrameSegmentAt(EncodeSegment(FrameSegment(f)) + rest, f.fill + 1, f);
  }

  lemma {:induction false} FillEndShifts(b: Buffer, i: nat, j: nat)
    requires i + j <= |b|
    ensures FillEnd(b, i + j) == i + FillEnd(b[i..], j)
    decreases |b| - i - j
  {
    if i + j < |b| && b[i + j] == 0xff {
      FillEndShifts(b, i, j + 1);
      assert i + j + 1 == i + (j + 1);
    }
  }

  lemma SegmentShifts(b: Buffer, i: nat, m: nat)
    requires i + m <= |b|
    ensures var s, t := SegmentAt(b, i + m), SegmentAt(b[i..], m);
      s == if t.Next? then Next(i + t.at) else t
  {
    var t := b[i..];
    if m + 3 <= |t| {
      SliceOfTail(b, i, t, m + 1, m + 3);
      assert b[i + m] == t[m];
      if m + 8 <= |t| {
        SliceOfTail(b, i, t, m + 4, m + 6);
        SliceOfTail(b, i, t, m + 6, m + 8);
      }
    }
  }

  /** What a scan finds depends only on the bytes ahead of it. */
  lemma {:induction false} ScanShifts(b: Buffer, i: nat, j: nat)
    requires i + j <= |b|
    ensures Scan(b, i + j) == Scan(b[i..], j)
    decreases |b| - i - j
  {
    var t := b[i..];
    if j + 9 < |t| {
      assert b[i + j] == t[j];
      if t[j] != 0xff {
        assert i + j + 1 == i + (j + 1);
        ScanShifts(b, i, j + 1);
      } else {
        var m := FillEnd(t, j);
        FillEndShifts(b, i, j);
        SegmentShifts(b, i, m);
        if SegmentAt(t, m).Next? { ScanShifts(b, i, SegmentAt(t, m).at); }
      }
    }
  }

  /** A buffer that starts with a written segment, followed by `rest`. */
  predicate LaidOut(b: Buffer, s: Written, rest: Buffer) {
    var m := s.fill + 1;
    && |b| == m + 3 + |s.payload| + |rest| && b[0] == 0xff && FillEnd(b, 0) == m && b[m] == s.marker
    && FromBigEndian(b[m + 1..m + 3]) == |s.payload| + 2
    && b[m + 3 + |s.payload|..] == rest
  }

  lemma SegmentIsSkipped(b: Buffer, s: Written, rest: Buffer)
    requires Skippable(s) && |rest| >= 10 && LaidOut(b, s, rest)
    ensures Scan(b, 0) == Scan(rest, 0)
  {
    var next := s.fill + 4 + |s.payload|;
    assert SegmentAt(b, s.fill + 1) == Next(next);
    ScanShifts(b, next, 0);
  }

  lemma Associates(a: Buffer, b: Buffer, c: Buffer)
    ensures (a + b) + c == a + (b + c)
  {}

  /** Segments that carry no size are passed over. */
  lemma {:induction false} SegmentsAreSkipped(before: seq<Written>, last: Buffer)
    requires AllSkippable(before) && |last| >= 10
    ensures Scan(EncodeSegments(before) + last, 0) == Scan(last, 0)
  {
    if before == [] {
      assert EncodeSegments(before) + last == last;
    } else {
      var rest := EncodeSegments(before[1..]) + last;
      FirstSegment(before, last);
      SegmentLayout(before[0], rest);
      SegmentIsSkipped(EncodeSegments(before) + last, before[0], rest);
      SegmentsAreSkipped(before[1..], last);
    }
  }

  lemma FirstSegment(ss: seq<Written>, last: Buffer)
    requires ss != []
    ensures EncodeSegments(ss) + last == EncodeSegment(ss[0]) + (EncodeSegments(ss[1..]) + last)
  {
    Associates(EncodeSegment(ss[0]), EncodeSegments(ss[1..]), last);
  }

  lemma FrameIsLong(f: FrameHeader, rest: Buffer)
    requires WellFramed(f)
    ensures |EncodeSegment(FrameSegment(f)) + rest| >= 10
  {
    FrameFields(f);
  }

  /** Both scanners measure every well-formed JPEG up to its frame header. */
  lemma JpegIsMeasured(before: seq<Written>, f: FrameHeader, rest: Buffer)
    requires WellFramed(f) && Visible(f.size) && AllSkippable(before)
    ensures var body := EncodeSegments(before) + (EncodeSegment(FrameSegment(f)) + rest);
      ImageOf([0xff, 0xd8] + body) == Some(Image(Jpeg, f.size))
  {
    FrameIsLong(f, rest);
    SegmentsAreSkipped(before, EncodeSegment(FrameSegment(f)) + rest);
    FrameIsRead(f, rest);
    JpegIsItsScan(EncodeSegments(before) + (EncodeSegment(FrameSegment(f)) + rest), f.size);
  }

  lemma JpegIsItsScan(body: Buffer, size: Size)
    requires Scan(body, 0) == Some(size) && Visible(size)
    ensures ImageOf([0xff, 0xd8] + body) == Some(Image(Jpeg, size))
  {
    var b := [0xff, 0xd8] + body;
    assert b[2..] == body && b[..2] == [0xff, 0xd8];
    assert |b| >= 8 ==> b[..8][0] != PNG_SIGNATURE[0];
    ScanShifts(b, 2, 0);
  }

  /** Both scanners measure every PNG whose IHDR follows its signature (section 11.2.2 of the PNG Specification). */
  lemma PngIsMeasured(chunkHeader: Buffer, size: Size, rest: Buffer)
    requires |chunkHeader| == 8 && size.width < 0x1_0000_0000 && size.height < 0x1_0000_0000 && Visible(size)
    ensures ImageOf(PNG_SIGNATURE + chunkHeader + ToBigEndian(size.width, 4) + ToBigEndian(size.height, 4) + rest)
         == Some(Image(Png, size))
  {
    var b := PNG_SIGNATURE + chunkHeader + ToBigEndian(size.width, 4) + ToBigEndian(size.height, 4) + rest;
    Widths();
    BigEndianRoundTrip(size.width, 4);
    BigEndianRoundTrip(size.height, 4);
    assert b[..8] == PNG_SIGNATURE && b[16..20] == ToBigEndian(size.width, 4)
      && b[20..24] == ToBigEndian(size.height, 4);
  }

  // ---------------------------------------------------------------- what is measured is a frame header

  /** The markers SOF0 to SOF15 of table B.1, without DHT, JPG and DAC. */
  lemma FrameMarkers(marker: byte)
    ensures IsFrameHeader(marker) <==>
      0xc0 <= marker <= 0xcf && marker != 0xc4 && marker != 0xc8 && marker != 0xcc
  {}

  /** A size that is found stands behind a frame marker in the file, lines before samples. */
  lemma {:induction false} ScanReadsFrame(b: Buffer, i: nat) returns (m: nat)
    requires Scan(b, i).Some?
    ensures i < m && m + 8 <= |b| && b[m - 1] == 0xff
    ensures 0xc0 <= b[m] <= 0xcf && b[m] != 0xc4 && b[m] != 0xc8 && b[m] != 0xcc
    ensures Scan(b, i).value == Size(Word(0, 0, b[m + 6], b[m + 7]), Word(0, 0, b[m + 4], b[m + 5]))
    decreases |b| - i
  {
    if b[i] != 0xff {
      m := ScanReadsFrame(b, i + 1);
    } else {
      m := FillEnd(b, i);
      match SegmentAt(b, m) {
        case Frame(_) => SegmentReadsFrame(b, m);
        case Next(at) => m := ScanReadsFrame(b, at);
      }
    }
  }

  lemma SegmentReadsFrame(b: Buffer, m: nat)
    requires m <= |b| && SegmentAt(b, m).Frame?
    ensures m + 8 <= |b| && 0xc0 <= b[m] <= 0xcf && b[m] != 0xc4 && b[m] != 0xc8 && b[m] != 0xcc
    ensures SegmentAt(b, m).size == Size(Word(0, 0, b[m + 6], b[m + 7]), Word(0, 0, b[m + 4], b[m + 5]))
  {
    BigEndianValues(b[m + 4..m + 6]);
    BigEndianValues(b[m + 6..m + 8]);
    FrameMarkers(b[m]);
  }

  /** What is recognised at all: a PNG or JPEG signature before a size that is nowhere zero. */
  lemma RecognisedIsSigned(b: Buffer)
    requires ImageOf(b).Some?
    ensures Visible(ImageOf(b).value.size)
    ensures ImageOf(b).value.media.Png? ==>
      && |b| >= 24 && b[..8] == [0x89, 0x50, 0x4e, 0x47, 0x0d, 0x0a, 0x1a, 0x0a]
      && ImageOf(b).value.size.width == Word(b[16], b[17], b[18], b[19])
      && ImageOf(b).value.size.height == Word(b[20], b[21], b[22], b[23])
    ensures ImageOf(b).value.media.Jpeg? ==> |b| >= 12 && b[0] == 0xff && b[1] == 0xd8
  {
    if ImageOf(b).value.media.Png? {
      BigEndianValues(b[16..20]);
      BigEndianValues(b[20..24]);
    } else {
      assert b[..2][0] == b[0] && b[..2][1] == b[1];
    }
  }
}
