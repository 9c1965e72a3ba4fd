/** imageproc/orientation.go: finding the orientation tag in the bytes of a JPEG file. */
module ExifScan {
  import opened Basics
  import opened Orientation
  import opened PixelLoops

  type Byte = x: int | 0 <= x < 256

  type Word = x: int | 0 <= x < 65536

  datatype ByteOrder = LittleEndian | BigEndian

  function Uint16(bo: ByteOrder, b: seq<Byte>): Word
    requires |b| == 2
  {
    var first: int, second: int := b[0], b[1];
    if bo.LittleEndian? then first + 256 * second else 256 * first + second
  }

  function Uint32(bo: ByteOrder, b: seq<Byte>): nat
    requires |b| == 4
  {
    if bo.LittleEndian? then Uint16(bo, b[..2]) + 65536 * Uint16(bo, b[2..])
    else 65536 * Uint16(bo, b[..2]) + Uint16(bo, b[2..])
  }

  // ----- the TIFF block -----

  function OrderOf(mark: seq<Byte>): Option<ByteOrder> {
    if mark == [0x49, 0x49] then Some(LittleEndian) else if mark == [0x4D, 0x4D] then Some(BigEndian) else None
  }

  const ORIENTATION: Word := 0x0112

  /** The image file directory a block's header points to. */
  datatype Directory = Directory(bo: ByteOrder, tiff: seq<Byte>, at: nat) {
    predicate Valid() { at + 2 <= |tiff| }

    function Count(): nat
      requires Valid()
    {
      Uint16(bo, tiff[at..at + 2])
    }

    function EntryAt(k: nat): nat { at + 2 + 12 * k }

    predicate Whole(k: nat) { EntryAt(k + 1) <= |tiff| }

    function Tag(k: nat): Word
      requires Whole(k)
    {
      Uint16(bo, tiff[EntryAt(k)..EntryAt(k) + 2])
    }

    function Value(k: nat): Word
      requires Whole(k)
    {
      Uint16(bo, tiff[EntryAt(k) + 8..EntryAt(k) + 10])
    }

    /** Entry k is in the directory and the block, and no entry before it is the orientation. */
    ghost predicate Reached(k: nat)
      requires Valid()
    {
      k < Count() && Whole(k) && forall i | 0 <= i < k :: Whole(i) && Tag(i) != ORIENTATION
    }
  }

  function DirectoryOf(tiff: seq<Byte>): (r: Option<Directory>)
    ensures r.Some? ==> r.value.Valid() && r.value.tiff == tiff
  {
    if |tiff| < 8 then None
    else
      var bo := OrderOf(tiff[..2]);
      if bo.None? then None
      else
        var at := Uint32(bo.value, tiff[4..8]);
        if at + 2 > |tiff| then None else Some(Directory(bo.value, tiff, at))
  }

  /** r is the value of the first orientation entry, 0 where there is none that can be read. */
  ghost predicate IsExifOrientation(tiff: seq<Byte>, r: int) {
    match DirectoryOf(tiff)
    case None => r == 0
    case Some(d) =>
      if exists k: nat :: d.Reached(k) && d.Tag(k) == ORIENTATION
      then exists k: nat :: d.Reached(k) && d.Tag(k) == ORIENTATION && r == d.Value(k)
      else r == 0
  }

  lemma FirstIsUnique(d: Directory, k: nat, l: nat)
    requires d.Valid() && d.Reached(k) && d.Tag(k) == ORIENTATION && d.Reached(l) && d.Tag(l) == ORIENTATION
    ensures k == l
  {
  }

  lemma ExifOrientationUnique(tiff: seq<Byte>, r: int, s: int)
    requires IsExifOrientation(tiff, r) && IsExifOrientation(tiff, s)
    ensures r == s
  {
    var dir := DirectoryOf(tiff);
    if dir.Some? {
      var d := dir.value;
      if exists k: nat :: d.Reached(k) && d.Tag(k) == ORIENTATION {
        var k: nat :| d.Reached(k) && d.Tag(k) == ORIENTATION && r == d.Value(k);
        var l: nat :| d.Reached(l) && d.Tag(l) == ORIENTATION && s == d.Value(l);
        FirstIsUnique(d, k, l);
      }
    }
  }

  /** The first orientation entry from entry k on. */
  function FirstFrom(d: Directory, k: nat): Word
    requires d.Valid()
    decreases d.Count() - k
  {
    if k >= d.Count() || !d.Whole(k) then 0
    else if d.Tag(k) == ORIENTATION then d.Value(k)
    else FirstFrom(d, k + 1)
  }

  function ExifOrientation(tiff: seq<Byte>): Word {
    match DirectoryOf(tiff)
    case None => 0
    case Some(d) => FirstFrom(d, 0)
  }

  lemma {:induction false} FirstFromIs(d: Directory, k: nat)
    requires d.Valid() && forall i | 0 <= i < k :: d.Whole(i) && d.Tag(i) != ORIENTATION
    ensures if exists l: nat :: d.Reached(l) && d.Tag(l) == ORIENTATION
      then exists l: nat :: d.Reached(l) && d.Tag(l) == ORIENTATION && FirstFrom(d, k) == d.Value(l)
      else FirstFrom(d, k) == 0
    decreases d.Count() - k
  {
    if k >= d.Count() || !d.Whole(k) {
      assert forall l: nat | l >= k :: !d.Reached(l);
    } else if d.Tag(k) == ORIENTATION {
      assert d.Reached(k);
    } else {
      FirstFromIs(d, k + 1);
    }
  }

  /** Reading a block is total, and finds exactly what the description says. */
  lemma ExifOrientationIff(tiff: seq<Byte>, r: int)
    ensures r == ExifOrientation(tiff) <==> IsExifOrientation(tiff, r)
  {
    var dir := DirectoryOf(tiff);
    if dir.Some? {
      FirstFromIs(dir.value, 0);
    }
    if IsExifOrientation(tiff, r) {
      ExifOrientationUnique(tiff, r, ExifOrientation(tiff));
    }
  }

  method ParseExifOrientation(tiff: seq<Byte>) returns (r: Word)
    ensures r == ExifOrientation(tiff)
  {
    if |tiff| < 8 {
      return 0;
    }
    var order := OrderOf(tiff[0..2]);
    if order.None? {
      return 0;
    }
    var bo := order.value;
    var p := Uint32(bo, tiff[4..8]);
    if p + 2 > |tiff| {
      return 0;
    }
    var numEntries := Uint16(bo, tiff[p..p + 2]);
    ghost var d := Directory(bo, tiff, p);
    ghost var first := ExifOrientation(tiff);
    assert DirectoryOf(tiff) == Some(d) && first == FirstFrom(d, 0);
    p := p + 2;
    for i := 0 to numEntries
      invariant p == d.EntryAt(i)
      invariant FirstFrom(d, i) == first
    {
      if p + 12 > |tiff| {
        return 0;
      }
      if Uint16(bo, tiff[p..p + 2]) == ORIENTATION {
        return Uint16(bo, tiff[p + 8..p + 10]);
      }
      p := p + 12;
    }
    return 0;
  }

  // ----- writing a block -----

  function PutUint16(bo: ByteOrder, v: Word): (b: seq<Byte>)
    ensures |b| == 2 && Uint16(bo, b) == v
  {
    if bo.LittleEndian? then [v % 256, v / 256] else [v / 256, v % 256]
  }

  function PutUint32(bo: ByteOrder, v: nat): (b: seq<Byte>)
    requires v < 0x1_0000_0000
    ensures |b| == 4 && Uint32(bo, b) == v
  {
    var low, high := PutUint16(bo, v % 65536), PutUint16(bo, v / 65536);
    var b := if bo.LittleEndian? then low + high else high + low;
    assert b[..2] == (if bo.LittleEndian? then low else high);
    assert b[2..] == (if bo.LittleEndian? then high else low);
    b
  }

  /** A directory entry: its tag, and type, count and value as ten bytes. */
  datatype Entry = Entry(tag: Word, rest: TenBytes)

  type TenBytes = b: seq<Byte> | |b| == 10 witness [0, 0, 0, 0, 0, 0, 0, 0, 0, 0]

  function PutEntry(bo: ByteOrder, e: Entry): (b: seq<Byte>)
    ensures |b| == 12
  {
    PutUint16(bo, e.tag) + e.rest
  }

  function PutEntries(bo: ByteOrder, es: seq<Entry>): (b: seq<Byte>)
    ensures |b| == 12 * |es|
  {
    if es == [] then [] else PutEntry(bo, es[0]) + PutEntries(bo, es[1..])
  }

  function Mark(bo: ByteOrder): seq<Byte> { if bo.LittleEndian? then [0x49, 0x49] else [0x4D, 0x4D] }

  function PutDirectory(bo: ByteOrder, es: seq<Entry>, after: seq<Byte>): seq<Byte>
    requires |es| < 65536
  {
    PutUint16(bo, |es|) + (PutEntries(bo, es) + after)
  }

  function PutHeader(bo: ByteOrder, version: Word, at: nat): (b: seq<Byte>)
    requires at < 0x1_0000_0000
    ensures |b| == 8 && OrderOf(b[..2]) == Some(bo) && Uint32(bo, b[4..8]) == at
  {
    var b := Mark(bo) + PutUint16(bo, version) + PutUint32(bo, at);
    assert b[..2] == Mark(bo) && b[4..8] == PutUint32(bo, at);
    b
  }

  /** A block: byte order, version and place of the directory; whatever lies between; the directory. */
  function PutBlock(bo: ByteOrder, version: Word, gap: seq<Byte>, es: seq<Entry>, after: seq<Byte>): seq<Byte>
    requires 8 + |gap| < 0x1_0000_0000 && |es| < 65536
  {
    PutHeader(bo, version, 8 + |gap|) + (gap + PutDirectory(bo, es, after))
  }

  /** What a block of these entries says. */
  function FirstValue(bo: ByteOrder, es: seq<Entry>): Word
  {
    if es == [] then 0
    else if es[0].tag == ORIENTATION then Uint16(bo, es[0].rest[6..8])
    else FirstValue(bo, es[1..])
  }

  lemma Part<T>(a: seq<T>, b: seq<T>, i: nat, j: nat)
    requires i <= j <= |b|
    ensures (a + b)[|a| + i..|a| + j] == b[i..j] && (a + b)[|a| + i..] == b[i..]
  {
  }

  lemma HeaderParts(head: seq<Byte>, rest: seq<Byte>)
    requires |head| == 8
    ensures (head + rest)[..2] == head[..2] && (head + rest)[4..8] == head[4..8]
  {
  }

  lemma BlockHeader(bo: ByteOrder, version: Word, gap: seq<Byte>, es: seq<Entry>, after: seq<Byte>)
    requires 8 + |gap| < 0x1_0000_0000 && |es| < 65536
    ensures var tiff := PutBlock(bo, version, gap, es, after);
      var d := Directory(bo, tiff, 8 + |gap|);
      DirectoryOf(tiff) == Some(d) && tiff[d.at..] == PutDirectory(bo, es, after)
  {
    var head, dir := PutHeader(bo, version, 8 + |gap|), PutDirectory(bo, es, after);
    HeaderParts(head, gap + dir);
    Part(head, gap + dir, |gap|, |gap|);
    Part(gap, dir, 0, 0);
  }

  lemma EntryParts(bo: ByteOrder, e: Entry, rest: seq<Byte>)
    ensures var b := PutEntry(bo, e) + rest;
      b[..2] == PutUint16(bo, e.tag) && b[8..10] == e.rest[6..8] && b[12..] == rest
  {
  }

  lemma Within(tiff: seq<Byte>, at: nat, i: nat, j: nat)
    requires at <= |tiff| && i <= j <= |tiff| - at
    ensures tiff[at + i..at + j] == tiff[at..][i..j] && tiff[at + i..] == tiff[at..][i..]
  {
  }

  lemma EntriesSplit(bo: ByteOrder, es: seq<Entry>, after: seq<Byte>)
    requires es != []
    ensures PutEntries(bo, es) + after == PutEntry(bo, es[0]) + (PutEntries(bo, es[1..]) + after)
  {
  }

  lemma FirstEntry(d: Directory, es: seq<Entry>, after: seq<Byte>, k: nat)
    requires d.EntryAt(k) <= |d.tiff| && es != []
    requires d.tiff[d.EntryAt(k)..] == PutEntries(d.bo, es) + after
    ensures d.Whole(k) && d.Tag(k) == es[0].tag && d.Value(k) == Uint16(d.bo, es[0].rest[6..8])
    ensures d.tiff[d.EntryAt(k + 1)..] == PutEntries(d.bo, es[1..]) + after
  {
    EntriesSplit(d.bo, es, after);
    EntryAtPlace(d, es[0], PutEntries(d.bo, es[1..]) + after, k);
  }

  lemma EntryAtPlace(d: Directory, e: Entry, rest: seq<Byte>, k: nat)
    requires d.EntryAt(k) <= |d.tiff| && d.tiff[d.EntryAt(k)..] == PutEntry(d.bo, e) + rest
    ensures d.Whole(k) && d.Tag(k) == e.tag && d.Value(k) == Uint16(d.bo, e.rest[6..8])
    ensures d.tiff[d.EntryAt(k + 1)..] == rest
  {
    var at := d.EntryAt(k);
    EntryParts(d.bo, e, rest);
    assert |d.tiff| - at == |PutEntry(d.bo, e) + rest| >= 12;
    Within(d.tiff, at, 0, 2);
    Within(d.tiff, at, 8, 10);
    Within(d.tiff, at, 12, 12);
  }

  lemma FirstFromStep(d: Directory, k: nat)
    requires d.Valid() && k < d.Count() && d.Whole(k)
    ensures FirstFrom(d, k) == if d.Tag(k) == ORIENTATION then d.Value(k) else FirstFrom(d, k + 1)
  {
  }

  /** Reading on from entry k finds the first orientation among the entries from there. */
  lemma {:induction false} FirstFromEntries(d: Directory, es: seq<Entry>, after: seq<Byte>, k: nat)
    requires d.Valid() && k + |es| == d.Count() && d.EntryAt(k) <= |d.tiff|
    requires d.tiff[d.EntryAt(k)..] == PutEntries(d.bo, es) + after
    ensures FirstFrom(d, k) == FirstValue(d.bo, es)
    decreases |es|
  {
    if es != [] {
      FirstEntry(d, es, after, k);
      FirstFromStep(d, k);
      if es[0].tag != ORIENTATION {
        FirstFromEntries(d, es[1..], after, k + 1);
      }
    }
  }

  /** A block written in either byte order, its directory anywhere and holding any
      entries, is read back: the value of its first orientation entry. */
  lemma ExifRoundTrip(bo: ByteOrder, version: Word, gap: seq<Byte>, es: seq<Entry>, after: seq<Byte>)
    requires 8 + |gap| < 0x1_0000_0000 && |es| < 65536
    ensures ExifOrientation(PutBlock(bo, version, gap, es, after)) == FirstValue(bo, es)
  {
    var tiff := PutBlock(bo, version, gap, es, after);
    var d := Directory(bo, tiff, 8 + |gap|);
    BlockHeader(bo, version, gap, es, after);
    Within(tiff, d.at, 0, 2);
    Within(tiff, d.at, 2, 2);
    Part(PutUint16(bo, |es|), PutEntries(bo, es) + after, 0, 0);
    assert d.Count() == |es|;
    FirstFromEntries(d, es, after, 0);
  }

  // ----- the JPEG segments -----

  const SOI: Byte := 0xD8
  const SOS: Byte := 0xDA
  const APP1: Byte := 0xE1
  const EXIF: seq<Byte> := [0x45, 0x78, 0x69, 0x66, 0, 0]

  /** Markers without a length field: SOI, EOI and RST0 to RST7. */
  predicate Bare(marker: Byte) { marker == 0xD8 || marker == 0xD9 || 0xD0 <= marker <= 0xD7 }

  predicate IsExif(marker: Byte, body: seq<Byte>) { marker == APP1 && EXIF <= body }

  function OrUpright(o: int): int { if o > 0 then o else 1 }

  /** What the scan makes of the bytes from some marker on. */
  function Scan(rest: seq<Byte>): int
    decreases |rest|
  {
    if |rest| < 4 || rest[0] != 0xFF then 1
    else if Bare(rest[1]) then Scan(rest[2..])
    else if rest[1] == SOS then 1
    else
      var segLen: int := Uint16(BigEndian, rest[2..4]);
      if segLen < 2 || 2 + segLen > |rest| then 1
      else
        var body := rest[4..2 + segLen];
        if IsExif(rest[1], body) then OrUpright(ExifOrientation(body[6..])) else Scan(rest[2 + segLen..])
  }

  function JpegTag(data: seq<Byte>): int {
    if |data| < 4 || data[0] != 0xFF || data[1] != SOI then 1 else Scan(data[2..])
  }

  /** The same scan by positions in the file. */
  function ScanFrom(data: seq<Byte>, p: nat): int
    decreases |data| - p
  {
    if p + 4 > |data| || data[p] != 0xFF then 1
    else if Bare(data[p + 1]) then ScanFrom(data, p + 2)
    else if data[p + 1] == SOS then 1
    else
      var segLen: int := Uint16(BigEndian, data[p + 2..p + 4]);
      if segLen < 2 || p + 2 + segLen > |data| then 1
      else
        var body := data[p + 4..p + 2 + segLen];
        if IsExif(data[p + 1], body) then OrUpright(ExifOrientation(body[6..])) else ScanFrom(data, p + 2 + segLen)
  }

  /** The parts of the segment at p, seen from the start of the file or from p. */
  lemma SegmentParts(data: seq<Byte>, p: nat)
    requires p + 4 <= |data|
    ensures data[p..][2..4] == data[p + 2..p + 4]
    ensures var segLen: int := Uint16(BigEndian, data[p + 2..p + 4]);
      2 <= segLen && p + 2 + segLen <= |data| ==>
        && data[p..][4..2 + segLen] == data[p + 4..p + 2 + segLen]
        && data[p..][2 + segLen..] == data[p + 2 + segLen..]
  {
    Within(data, p, 2, 4);
    var segLen: int := Uint16(BigEndian, data[p + 2..p + 4]);
    if 2 <= segLen && p + 2 + segLen <= |data| {
      Within(data, p, 4, 2 + segLen);
      Within(data, p, 2 + segLen, 2 + segLen);
    }
  }

  /** Where the scan passes over a marker or a segment, it goes on at `next`. */
  function NextAt(data: seq<Byte>, p: nat): (next: nat)
    requires p + 4 <= |data|
    ensures next > p
  {
    if Bare(data[p + 1]) then p + 2 else p + 2 + Uint16(BigEndian, data[p + 2..p + 4])
  }

  predicate PassesAt(data: seq<Byte>, p: nat) {
    p + 4 <= |data| && data[p] == 0xFF && data[p + 1] != SOS && NextAt(data, p) <= |data| &&
    (!Bare(data[p + 1]) ==>
      NextAt(data, p) >= p + 4 && !IsExif(data[p + 1], data[p + 4..NextAt(data, p)]))
  }

  lemma ScansAlike(data: seq<Byte>, p: nat)
    requires p <= |data|
    ensures if PassesAt(data, p)
      then ScanFrom(data, p) == ScanFrom(data, NextAt(data, p)) && Scan(data[p..]) == Scan(data[NextAt(data, p)..])
      else ScanFrom(data, p) == Scan(data[p..])
  {
    if p + 4 <= |data| && data[p] == 0xFF {
      Within(data, p, 2, 2);
      SegmentParts(data, p);
    }
  }

  lemma {:induction false} ScanFromIs(data: seq<Byte>, p: nat)
    requires p <= |data|
    ensures ScanFrom(data, p) == Scan(data[p..])
    decreases |data| - p
  {
    ScansAlike(data, p);
    if PassesAt(data, p) {
      ScanFromIs(data, NextAt(data, p));
    }
  }

  method JpegOrientation(data: seq<Byte>) returns (o: int)
    ensures o == JpegTag(data)
  {
    if |data| < 4 || data[0] != 0xFF || data[1] != SOI {
      return 1;
    }
    var p := 2;
    ghost var tag := ScanFrom(data, p);
    assert JpegTag(data) == tag by {
      ScanFromIs(data, p);
    }
    while p + 4 <= |data|
      invariant 2 <= p <= |data|
      invariant ScanFrom(data, p) == tag
    {
      if data[p] != 0xFF {
        return 1;
      }
      var marker := data[p + 1];
      if Bare(marker) {
        p := p + 2;
        continue;
      }
      if marker == SOS {
        return 1;
      }
      var segLen: int := Uint16(BigEndian, data[p + 2..p + 4]);
      if segLen < 2 || p + 2 + segLen > |data| {
        return 1;
      }
      var segData := data[p + 4..p + 2 + segLen];
      if IsExif(marker, segData) {
        var found := ParseExifOrientation(segData[6..]);
        return OrUpright(found);
      }
      p := p + 2 + segLen;
    }
    return 1;
  }

  // ----- well-formed files -----

  datatype Segment = Marker(marker: Byte) | Sized(marker: Byte, body: seq<Byte>)

  /** A segment the scan reads past. */
  predicate Passed(s: Segment) {
    if s.Marker? then Bare(s.marker)
    else !Bare(s.marker) && s.marker != SOS && |s.body| <= 65533 && !IsExif(s.marker, s.body)
  }

  function PutSized(marker: Byte, body: seq<Byte>): seq<Byte>
    requires |body| <= 65533
  {
    [0xFF, marker] + PutUint16(BigEndian, |body| + 2) + body
  }

  function Put(s: Segment): seq<Byte>
    requires Passed(s)
  {
    if s.Marker? then [0xFF, s.marker] else PutSized(s.marker, s.body)
  }

  function PutAll(segs: seq<Segment>): seq<Byte>
    requires forall s | s in segs :: Passed(s)
  {
    if segs == [] then [] else Put(segs[0]) + PutAll(segs[1..])
  }

  lemma SizedParts(marker: Byte, body: seq<Byte>, rest: seq<Byte>)
    requires |body| <= 65533
    ensures var b := PutSized(marker, body) + rest;
      && |b| >= 4 + |body| && b[0] == 0xFF && b[1] == marker
      && Uint16(BigEndian, b[2..4]) == |body| + 2
      && b[4..4 + |body|] == body && b[4 + |body|..] == rest
  {
    var b := PutSized(marker, body) + rest;
    assert b[2..4] == PutUint16(BigEndian, |body| + 2);
  }

  lemma PassOne(s: Segment, rest: seq<Byte>)
    requires Passed(s)
    ensures Scan(Put(s) + rest) == Scan(rest)
  {
    if s.Marker? {
      assert (Put(s) + rest)[2..] == rest;
    } else {
      SizedParts(s.marker, s.body, rest);
    }
  }

  lemma {:induction false} PassAll(segs: seq<Segment>, rest: seq<Byte>)
    requires forall s | s in segs :: Passed(s)
    ensures Scan(PutAll(segs) + rest) == Scan(rest)
  {
    if segs == [] {
      assert PutAll(segs) + rest == rest;
    } else {
      PassAll(segs[1..], rest);
      PassOne(segs[0], PutAll(segs[1..]) + rest);
      AllSplit(segs, rest);
    }
  }

  lemma AllSplit(segs: seq<Segment>, rest: seq<Byte>)
    requires segs != [] && forall s | s in segs :: Passed(s)
    ensures PutAll(segs) + rest == Put(segs[0]) + (PutAll(segs[1..]) + rest)
  {
  }

  /** A start marker, any well-formed segments without Exif data, an Exif segment, anything. */
  function PutFile(segs: seq<Segment>, tiff: seq<Byte>, after: seq<Byte>): seq<Byte>
    requires (forall s | s in segs :: Passed(s)) && |tiff| <= 65527
  {
    [0xFF, SOI] + (PutAll(segs) + (PutSized(APP1, EXIF + tiff) + after))
  }

  /** The scan finds the Exif segment, wherever it stands, and reads the tag in it. */
  lemma FileSaysWhatItsBlockSays(segs: seq<Segment>, tiff: seq<Byte>, after: seq<Byte>)
    requires (forall s | s in segs :: Passed(s)) && |tiff| <= 65527
    ensures JpegTag(PutFile(segs, tiff, after)) == OrUpright(ExifOrientation(tiff))
  {
    var exif := PutSized(APP1, EXIF + tiff) + after;
    var data := PutFile(segs, tiff, after);
    assert data[2..] == PutAll(segs) + exif;
    PassAll(segs, exif);
    SizedParts(APP1, EXIF + tiff, after);
    assert (EXIF + tiff)[6..] == tiff;
  }

  /** A file whose Exif block has a positive orientation is found to have it. */
  lemma TagIsFound(
    segs: seq<Segment>, bo: ByteOrder, version: Word, gap: seq<Byte>, es: seq<Entry>, more: seq<Byte>, after: seq<Byte>)
    requires forall s | s in segs :: Passed(s)
    requires |es| < 65536 && 8 + |gap| < 0x1_0000_0000 && |PutBlock(bo, version, gap, es, more)| <= 65527
    ensures JpegTag(PutFile(segs, PutBlock(bo, version, gap, es, more), after)) == OrUpright(FirstValue(bo, es))
  {
    FileSaysWhatItsBlockSays(segs, PutBlock(bo, version, gap, es, more), after);
    ExifRoundTrip(bo, version, gap, es, more);
  }

  // ----- the bytes themselves -----

  lemma OneEntryBlock(bo: ByteOrder, e: Entry, after: seq<Byte>)
    ensures PutBlock(bo, 42, [], [e], after) == PutHeader(bo, 42, 8) + PutUint16(bo, 1) + PutEntry(bo, e) + after
  {
    assert PutEntries(bo, [e]) == PutEntry(bo, e) + PutEntries(bo, []) == PutEntry(bo, e);
    assert PutDirectory(bo, [e], after) == PutUint16(bo, 1) + (PutEntry(bo, e) + after);
    assert [] + PutDirectory(bo, [e], after) == PutDirectory(bo, [e], after);
  }

  lemma HeaderBytes()
    ensures PutHeader(BigEndian, 42, 8) == [0x4D, 0x4D, 0, 42, 0, 0, 0, 8]
    ensures PutHeader(LittleEndian, 42, 8) == [0x49, 0x49, 42, 0, 8, 0, 0, 0]
  {}

  /** A block as a camera writes it, big endian, with the one entry 0x0112. */
  lemma BigBlock(v: Byte)
    ensures PutBlock(BigEndian, 42, [], [Entry(0x0112, [0, 3, 0, 0, 0, 1, 0, v, 0, 0])], []) ==
      [0x4D, 0x4D, 0, 42, 0, 0, 0, 8] + [0, 1] + [0x01, 0x12, 0, 3, 0, 0, 0, 1, 0, v, 0, 0] + []
  {
    var e := Entry(0x0112, [0, 3, 0, 0, 0, 1, 0, v, 0, 0]);
    OneEntryBlock(BigEndian, e, []);
    HeaderBytes();
    assert PutEntry(BigEndian, e) == [0x01, 0x12, 0, 3, 0, 0, 0, 1, 0, v, 0, 0];
  }

  /** And little endian. */
  lemma LittleBlock(v: Byte)
    ensures PutBlock(LittleEndian, 42, [], [Entry(0x0112, [3, 0, 1, 0, 0, 0, v, 0, 0, 0])], []) ==
      [0x49, 0x49, 42, 0, 8, 0, 0, 0] + [1, 0] + [0x12, 0x01, 3, 0, 1, 0, 0, 0, v, 0, 0, 0] + []
  {
    var e := Entry(0x0112, [3, 0, 1, 0, 0, 0, v, 0, 0, 0]);
    OneEntryBlock(LittleEndian, e, []);
    HeaderBytes();
    assert PutEntry(LittleEndian, e) == [0x12, 0x01, 3, 0, 1, 0, 0, 0, v, 0, 0, 0];
  }

  /** FF D8, then FF E1 with its length, "Exif" and two zeros before the block, then anything. */
  lemma FileBytes(block: seq<Byte>, after: seq<Byte>)
    requires |block| == 22
    ensures PutFile([], block, after) ==
      [0xFF, 0xD8, 0xFF, 0xE1, 0, 30, 0x45, 0x78, 0x69, 0x66, 0, 0] + block + after
  {
    assert PutSized(APP1, EXIF + block) == [0xFF, 0xE1, 0, 30] + (EXIF + block);
    assert PutAll([]) == [];
  }

  lemma KnownFile(bo: ByteOrder, e: Entry, block: seq<Byte>, after: seq<Byte>)
    requires block == PutBlock(bo, 42, [], [e], []) && |block| == 22 && e.tag == 0x0112
    ensures JpegTag([0xFF, 0xD8, 0xFF, 0xE1, 0, 30, 0x45, 0x78, 0x69, 0x66, 0, 0] + block + after) ==
      OrUpright(Uint16(bo, e.rest[6..8]))
  {
    FileBytes(block, after);
    TagIsFound([], bo, 42, [], [e], [], after);
  }

  /** So these files have the tag v, whatever follows. */
  lemma KnownFiles(v: Byte, after: seq<Byte>)
    requires v > 0
    ensures var start := [0xFF, 0xD8, 0xFF, 0xE1, 0, 30, 0x45, 0x78, 0x69, 0x66, 0, 0];
      && JpegTag(start + ([0x4D, 0x4D, 0, 42, 0, 0, 0, 8] + [0, 1] +
                          [0x01, 0x12, 0, 3, 0, 0, 0, 1, 0, v, 0, 0] + []) + after) == v
      && JpegTag(start + ([0x49, 0x49, 42, 0, 8, 0, 0, 0] + [1, 0] +
                          [0x12, 0x01, 3, 0, 1, 0, 0, 0, v, 0, 0, 0] + []) + after) == v
  {
    var big, little := Entry(0x0112, [0, 3, 0, 0, 0, 1, 0, v, 0, 0]), Entry(0x0112, [3, 0, 1, 0, 0, 0, v, 0, 0, 0]);
    BigBlock(v);
    LittleBlock(v);
    KnownFile(BigEndian, big, PutBlock(BigEndian, 42, [], [big], []), after);
    KnownFile(LittleEndian, little, PutBlock(LittleEndian, 42, [], [little], []), after);
    assert big.rest[6..8] == [0, v] && little.rest[6..8] == [v, 0];
  }

  /** What stands before the Exif segment and has no length: FF D0 to FF D9. FF DA ends the scan. */
  lemma BareBytes(marker: Byte, rest: seq<Byte>)
    requires |rest| >= 2
    ensures 0xD0 <= marker <= 0xD9 ==> Scan([0xFF, marker] + rest) == Scan(rest)
    ensures marker == 0xDA ==> Scan([0xFF, marker] + rest) == 1
  {
    assert ([0xFF, marker] + rest)[2..] == rest;
  }

  /** And anything else is passed over by its length, unless it is FF E1 with "Exif" and two zeros. */
  lemma SizedBytes(marker: Byte, high: Byte, low: Byte, body: seq<Byte>, rest: seq<Byte>)
    requires (marker < 0xD0 || marker > 0xDA) && 256 * high + low == |body| + 2
    requires marker == 0xE1 ==> !([0x45, 0x78, 0x69, 0x66, 0, 0] <= body)
    ensures Scan([0xFF, marker, high, low] + body + rest) == Scan(rest)
  {
    SizedParts(marker, body, rest);
    assert PutUint16(BigEndian, |body| + 2) == [high, low];
    assert [0xFF, marker, high, low] + body + rest == PutSized(marker, body) + rest;
    PassOne(Sized(marker, body), rest);
  }

  // ----- every file -----

  /** Bytes the scan does not read past. */
  predicate Final(rest: seq<Byte>) {
    || |rest| < 4 || rest[0] != 0xFF
    || (!Bare(rest[1]) &&
          var end := 2 + Uint16(BigEndian, rest[2..4]) as int;
          rest[1] == SOS || end < 4 || end > |rest| || IsExif(rest[1], rest[4..end]))
  }

  lemma SplitOne(rest: seq<Byte>) returns (s: Segment, more: seq<Byte>)
    requires !Final(rest)
    ensures Passed(s) && rest == Put(s) + more
  {
    if Bare(rest[1]) {
      s, more := Marker(rest[1]), rest[2..];
    } else {
      var segLen: int := Uint16(BigEndian, rest[2..4]);
      s, more := Sized(rest[1], rest[4..2 + segLen]), rest[2 + segLen..];
      assert PutUint16(BigEndian, segLen) == rest[2..4];
    }
  }

  /** Only an Exif segment makes the verdict anything but 1. */
  lemma FinalVerdict(tail: seq<Byte>)
    requires Final(tail) && Scan(tail) != 1
    ensures |tail| >= 4
    ensures var end := 2 + Uint16(BigEndian, tail[2..4]) as int;
      4 <= end <= |tail| && IsExif(tail[1], tail[4..end]) && Scan(tail) == ExifOrientation(tail[4..end][6..])
  {
  }

  /** Whatever bytes a file holds, the scan reads past some well-formed segments and
      its verdict is that of the first bytes that are not one. */
  lemma {:induction false} EveryFileSplits(rest: seq<Byte>) returns (segs: seq<Segment>, tail: seq<Byte>)
    ensures (forall s | s in segs :: Passed(s)) && rest == PutAll(segs) + tail
    ensures Final(tail) && Scan(rest) == Scan(tail)
    decreases |rest|
  {
    if Final(rest) {
      segs, tail := [], rest;
    } else {
      var s, more := SplitOne(rest);
      var segs';
      segs', tail := EveryFileSplits(more);
      segs := [s] + segs';
      assert rest == PutAll(segs) + tail;
      PassOne(s, more);
    }
  }

  /** The tail is an Exif segment whose first readable orientation entry, if any, is beyond 8. */
  ghost predicate SaysMoreThan8(tail: seq<Byte>) {
    && |tail| >= 4 && tail[0] == 0xFF && !Bare(tail[1]) && tail[1] != SOS
    && var end := 2 + Uint16(BigEndian, tail[2..4]) as int;
       && 4 <= end <= |tail| && IsExif(tail[1], tail[4..end])
       && exists v: Word :: v > 8 && IsExifOrientation(tail[4..end][6..], v)
  }

  lemma FinalScan(tail: seq<Byte>)
    requires Final(tail)
    ensures Scan(tail) <= 8 <==> !SaysMoreThan8(tail)
  {
    if Scan(tail) != 1 {
      FinalVerdict(tail);
      var block := tail[4..2 + Uint16(BigEndian, tail[2..4]) as int][6..];
      ExifOrientationIff(block, ExifOrientation(block));
    }
    if SaysMoreThan8(tail) {
      var block := tail[4..2 + Uint16(BigEndian, tail[2..4]) as int][6..];
      var v: Word :| v > 8 && IsExifOrientation(block, v);
      ExifOrientationIff(block, v);
    }
  }

  predicate BeginsWithSOI(data: seq<Byte>) { |data| >= 2 && data[0] == 0xFF && data[1] == SOI }

  /** The documentation promises 1 to 8. For any file that begins with SOI, taken
      apart as EveryFileSplits takes it apart, the answer keeps the promise if
      and only if the tail is not an Exif segment whose first readable
      orientation entry exceeds 8. Any other file keeps it. */
  lemma TagWithin8Iff(data: seq<Byte>, segs: seq<Segment>, tail: seq<Byte>)
    requires BeginsWithSOI(data) ==>
      (forall s | s in segs :: Passed(s)) && data[2..] == PutAll(segs) + tail && Final(tail)
    ensures 1 <= JpegTag(data) <= 8 <==> !(BeginsWithSOI(data) && SaysMoreThan8(tail))
  {
    if BeginsWithSOI(data) {
      PassAll(segs, tail);
      ScanRange(data[2..]);
      FinalScan(tail);
      assert JpegTag(data) == Scan(data[2..]);
    }
  }

  lemma {:induction false} ScanRange(rest: seq<Byte>)
    ensures 1 <= Scan(rest) < 65536
    decreases |rest|
  {
    if !Final(rest) {
      ScanRange(if Bare(rest[1]) then rest[2..] else rest[2 + Uint16(BigEndian, rest[2..4]) as int..]);
    }
  }

  /** The entry a camera writes: one SHORT. */
  function ShortEntry(v: Word): Entry {
    Entry(ORIENTATION, PutUint16(BigEndian, 3) + PutUint32(BigEndian, 1) + PutUint16(BigEndian, v) + [0, 0])
  }

  /** Over all files the answers are exactly 1 to 65535. */
  lemma TagRange(v: int)
    ensures (exists data :: JpegTag(data) == v) <==> 1 <= v < 65536
  {
    if data :| JpegTag(data) == v {
      if |data| >= 4 {
        ScanRange(data[2..]);
      }
    }
    if 1 <= v < 65536 {
      var e := ShortEntry(v);
      assert e.rest[6..8] == PutUint16(BigEndian, v);
      BlockSize(BigEndian, e);
      TagIsFound([], BigEndian, 42, [], [e], [], []);
      assert JpegTag(PutFile([], PutBlock(BigEndian, 42, [], [e], []), [])) == v;
    }
  }

  lemma BlockSize(bo: ByteOrder, e: Entry)
    ensures |PutBlock(bo, 42, [], [e], [])| == 22
  {
    assert |PutEntries(bo, [e])| == 12;
  }

  // ----- FixOrientation -----

  datatype Failed = EncodeFailed

  /** The picture is turned only for the tags 2 to 8; the copy, shown without a tag, then
      looks as the original should. An undecodable file passes through, and a
      copy that cannot be encoded is an error. */
  method FixOrientation<T(0)>(data: seq<Byte>, decoded: Option<Image<T>>, encodes: bool)
    returns (out: Result<Option<array2<T>>, Failed>)
    ensures out == Success(None) <==> !(2 <= JpegTag(data) <= 8) || decoded.None?
    ensures out.Failure? ==> !encodes
    ensures out.Success? && out.value.Some? ==> encodes && fresh(out.value.value)
    ensures out.Success? && out.value.Some? ==>
      LooksRight(JpegTag(data), PictureOf(decoded.value.pix), PictureOf(out.value.value))
  {
    var o := JpegOrientation(data);
    if o <= 1 || o > 8 {
      return Success(None);
    }
    if decoded.None? {
      return Success(None);
    }
    var copy := ApplyOrientation(decoded.value, o);
    BakedLooksRight(o, PictureOf(decoded.value.pix), PictureOf(copy));
    if !encodes {
      return Failure(EncodeFailed);
    }
    return Success(Some(copy));
  }
}
