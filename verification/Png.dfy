/** The stored-block PNG writer, against a reader of the published formats. */
module Png {
  import opened Basics
  import opened ByteOrder

  const SIGNATURE: Bytes := [137, 80, 78, 71, 13, 10, 26, 10]
  const IHDR: Bytes := [73, 72, 68, 82]
  const IDAT: Bytes := [73, 68, 65, 84]
  const IEND: Bytes := [73, 69, 78, 68]
  const STORED_LIMIT := 65535

  type Checksum = Bytes -> Word

  // ------------------------------------------------ the writer

  /** One chunk; None when the length field cannot hold the length. */
  function Chunk(kind: Bytes, data: Bytes, crc: Checksum): Option<Bytes> {
    if |data| < 0x1_0000_0000 then Some(Big(|data|, 4) + kind + data + Big(crc(kind + data), 4)) else None
  }

  /** Scan lines of `stride` bytes, each behind filter type zero. */
  function Filtered(data: Bytes, stride: nat): Bytes
    requires stride > 0
  {
    if data == [] then []
    else if |data| <= stride then [0] + data
    else [0] + data[..stride] + Filtered(data[stride..], stride)
  }

  /** The pieces of at most `STORED_LIMIT` bytes. */
  function Pieces(rows: Bytes): (blocks: seq<Bytes>)
    ensures forall b | b in blocks :: 0 < |b| <= STORED_LIMIT
  {
    if rows == [] then []
    else if |rows| <= STORED_LIMIT then [rows]
    else [rows[..STORED_LIMIT]] + Pieces(rows[STORED_LIMIT..])
  }

  /** One stored block: final flag, length, complemented length, bytes. */
  function StoredBlock(block: Bytes, last: bool): Bytes
    requires |block| <= STORED_LIMIT
  {
    [if last then 1 else 0] + Little(|block|, 2) + Little(STORED_LIMIT - |block|, 2) + block
  }

  /** The blocks from `i` on. */
  function Stored(blocks: seq<Bytes>, i: nat): Bytes
    requires i <= |blocks| && forall b | b in blocks :: |b| <= STORED_LIMIT
    decreases |blocks| - i
  {
    if i == |blocks| then [] else StoredBlock(blocks[i], i == |blocks| - 1) + Stored(blocks, i + 1)
  }

  datatype Sums = Sums(a: nat, b: nat)

  function AdlerSums(s: Bytes): (r: Sums)
    ensures r.a < 65521 && r.b < 65521
  {
    if s == [] then Sums(1, 0)
    else
      var before := AdlerSums(s[..|s| - 1]);
      var a := (before.a + s[|s| - 1]) % 65521;
      Sums(a, (before.b + a) % 65521)
  }

  function Adler(s: Bytes): Word {
    var sums := AdlerSums(s);
    sums.b * 65536 + sums.a
  }

  function Compressed(rows: Bytes): Bytes {
    [0x78, 0x01] + Stored(Pieces(rows), 0) + Big(Adler(rows), 4)
  }

  function Header(size: nat): Bytes { Big(size, 4) + Big(size, 4) + [8, 6, 0, 0, 0] }

  /** The PNG of `size * size` pixels; None when a four-byte field overflows. */
  function Write(size: nat, data: Bytes, crc: Checksum): Option<Bytes>
    requires size > 0
  {
    if size >= 0x1_0000_0000 then None
    else
      var header := Chunk(IHDR, Header(size), crc);
      var body := Chunk(IDAT, Compressed(Filtered(data, 4 * size)), crc);
      var end := Chunk(IEND, [], crc);
      if body.None? then None else Some(SIGNATURE + header.value + body.value + end.value)
  }

  // ------------------------------------------------ a reader

  datatype ChunkRead = ChunkRead(kind: Bytes, data: Bytes, rest: Bytes)

  /** Chunk layout of section 3.2 of RFC 2083. */
  function ReadChunk(s: Bytes, crc: Checksum): Option<ChunkRead> {
    if |s| < 12 then None
    else
      var n := FromBig(s[..4]);
      if |s| < 12 + n || FromBig(s[8 + n..12 + n]) != crc(s[4..8 + n]) then None
      else Some(ChunkRead(s[4..8], s[8..8 + n], s[12 + n..]))
  }

  datatype Inflated = Inflated(data: Bytes, rest: Bytes)

  /** Stored blocks of section 3.2.4 of RFC 1951, up to and including the first final one. */
  function Inflate(s: Bytes): Option<Inflated>
    decreases |s|
  {
    if |s| < 5 || s[0] / 2 % 4 != 0 then None
    else
      var n := FromLittle(s[1..3]);
      if FromLittle(s[3..5]) + n != 65535 || |s| < 5 + n then None
      else if s[0] % 2 == 1 then Some(Inflated(s[5..5 + n], s[5 + n..]))
      else
        match Inflate(s[5 + n..])
        case None => None
        case Some(more) => Some(Inflated(s[5..5 + n] + more.data, more.rest))
  }

  /** The wrapper of section 2.2 of RFC 1950, without a dictionary. */
  function Decompress(s: Bytes): Option<Bytes> {
    if |s| < 2 || s[0] % 16 != 8 || FromBig(s[..2]) % 31 != 0 || s[1] / 32 % 2 != 0 then None
    else
      match Inflate(s[2..])
      case None => None
      case Some(r) => if |r.rest| == 4 && FromBig(r.rest) == Adler(r.data) then Some(r.data) else None
  }

  /** Filter type zero of section 6.2 of RFC 2083. */
  function Unfilter(rows: Bytes, stride: nat): Option<Bytes> {
    if rows == [] then Some([])
    else if |rows| < 1 + stride || rows[0] != 0 then None
    else
      match Unfilter(rows[1 + stride..], stride)
      case None => None
      case Some(more) => Some(rows[1..1 + stride] + more)
  }

  datatype Image = Image(width: nat, height: nat, data: Bytes)

  /** An eight-bit RGBA image in one data chunk. */
  function Read(s: Bytes, crc: Checksum): Option<Image> {
    if |s| < 8 || s[..8] != SIGNATURE then None
    else
      var header := ReadChunk(s[8..], crc);
      if header.None? || header.value.kind != IHDR || |header.value.data| != 13
         || header.value.data[8..] != [8, 6, 0, 0, 0] then None
      else
        var body := ReadChunk(header.value.rest, crc);
        if body.None? || body.value.kind != IDAT then None
        else
          var end := ReadChunk(body.value.rest, crc);
          var width, height := FromBig(header.value.data[..4]), FromBig(header.value.data[4..8]);
          if end.None? || end.value.kind != IEND || end.value.data != [] || end.value.rest != [] then None
          else ReadPixels(width, height, body.value.data)
  }

  function ReadPixels(width: nat, height: nat, compressed: Bytes): Option<Image> {
    match Decompress(compressed)
    case None => None
    case Some(rows) =>
      match Unfilter(rows, 4 * width)
      case None => None
      case Some(data) => if |data| == 4 * (width * height) then Some(Image(width, height, data)) else None
  }

  // ------------------------------------------------ round trips

  lemma ChunkRoundTrip(kind: Bytes, data: Bytes, rest: Bytes, crc: Checksum)
    requires |kind| == 4 && |data| < 0x1_0000_0000
    ensures ReadChunk(Chunk(kind, data, crc).value + rest, crc) == Some(ChunkRead(kind, data, rest))
  {
    hide Big, FromBig;
    var n, sum := |data|, crc(kind + data);
    Limits();
    BigRoundTrip(n, 4);
    BigRoundTrip(sum, 4);
    var s := Big(n, 4) + kind + data + Big(sum, 4) + rest;
    assert s[..4] == Big(n, 4);
    assert s[4..8] == kind && s[8..8 + n] == data && s[4..8 + n] == kind + data;
    assert s[8 + n..12 + n] == Big(sum, 4) && s[12 + n..] == rest;
  }

  lemma {:induction false} FilterRoundTrip(data: Bytes, stride: nat, rows: nat)
    requires stride > 0 && |data| == rows * stride
    ensures Unfilter(Filtered(data, stride), stride) == Some(data)
    decreases rows
  {
    if rows > 0 {
      assert rows * stride == stride + (rows - 1) * stride;
      var tail := data[stride..];
      FilterRoundTrip(tail, stride, rows - 1);
      var all := Filtered(data, stride);
      assert all == [0] + data[..stride] + Filtered(tail, stride);
      assert all[1..1 + stride] == data[..stride] && all[1 + stride..] == Filtered(tail, stride);
      assert data == data[..stride] + tail;
    }
  }

  function Joined(blocks: seq<Bytes>, i: nat): Bytes
    requires i <= |blocks|
    decreases |blocks| - i
  {
    if i == |blocks| then [] else blocks[i] + Joined(blocks, i + 1)
  }

  lemma StoredStep(block: Bytes, last: bool, rest: Bytes)
    requires |block| <= STORED_LIMIT
    ensures
      var s := StoredBlock(block, last) + rest;
      && |s| >= 5 + |block| && s[0] == (if last then 1 else 0)
      && FromLittle(s[1..3]) == |block| && FromLittle(s[3..5]) == STORED_LIMIT - |block|
      && s[5..5 + |block|] == block && s[5 + |block|..] == rest
  {
    hide Little, FromLittle;
    var n := |block|;
    Limits();
    LittleRoundTrip(n, 2);
    LittleRoundTrip(STORED_LIMIT - n, 2);
    var s := StoredBlock(block, last) + rest;
    assert s[1..3] == Little(n, 2) && s[3..5] == Little(STORED_LIMIT - n, 2);
    assert s[5..5 + n] == block && s[5 + n..] == rest;
  }

  lemma InflateStep(block: Bytes, last: bool, rest: Bytes)
    requires |block| <= STORED_LIMIT
    ensures last ==> Inflate(StoredBlock(block, last) + rest) == Some(Inflated(block, rest))
    ensures !last && Inflate(rest).Some? ==>
              Inflate(StoredBlock(block, last) + rest)
                == Some(Inflated(block + Inflate(rest).value.data, Inflate(rest).value.rest))
  {
    StoredStep(block, last, rest);
    hide StoredBlock, FromLittle;
  }

  lemma StoredUnfolds(blocks: seq<Bytes>, i: nat, rest: Bytes)
    requires i < |blocks| && forall b | b in blocks :: |b| <= STORED_LIMIT
    ensures Stored(blocks, i) + rest == StoredBlock(blocks[i], i == |blocks| - 1) + (Stored(blocks, i + 1) + rest)
    ensures Stored(blocks, |blocks|) + rest == rest
    ensures Joined(blocks, |blocks|) == [] && Joined(blocks, i) == blocks[i] + Joined(blocks, i + 1)
  {
    hide StoredBlock;
    var first, more := StoredBlock(blocks[i], i == |blocks| - 1), Stored(blocks, i + 1);
    assert (first + more) + rest == first + (more + rest);
  }

  /** The reader takes every block and stops at the last one: no earlier block is final and the last one is. */
  lemma {:induction false} StoredRoundTrip(blocks: seq<Bytes>, i: nat, rest: Bytes)
    requires i < |blocks| && forall b | b in blocks :: |b| <= STORED_LIMIT
    ensures Inflate(Stored(blocks, i) + rest) == Some(Inflated(Joined(blocks, i), rest))
    decreases |blocks| - i
  {
    hide Inflate, Stored, StoredBlock, Joined;
    StoredUnfolds(blocks, i, rest);
    var more := Stored(blocks, i + 1) + rest;
    InflateStep(blocks[i], i == |blocks| - 1, more);
    if i == |blocks| - 1 {
      assert blocks[i] + [] == blocks[i];
    } else {
      StoredRoundTrip(blocks, i + 1, rest);
    }
  }

  lemma {:induction false} PiecesJoin(rows: Bytes)
    ensures Joined(Pieces(rows), 0) == rows
    ensures rows != [] ==> 0 < |Pieces(rows)| <= |rows|
  {
    if |rows| > STORED_LIMIT {
      var first, tail := rows[..STORED_LIMIT], rows[STORED_LIMIT..];
      PiecesJoin(tail);
      PiecesUnfold(rows);
      var rest := Pieces(tail);
      hide Pieces;
      JoinedShift(first, rest, 0);
      JoinedUnfold([first] + rest, 0);
      assert rows == first + tail;
    } else if rows != [] {
      JoinedUnfold([rows], 0);
      JoinedUnfold([rows], 1);
    }
  }

  lemma PiecesUnfold(rows: Bytes)
    requires |rows| > STORED_LIMIT
    ensures Pieces(rows) == [rows[..STORED_LIMIT]] + Pieces(rows[STORED_LIMIT..])
  {
  }

  lemma JoinedUnfold(blocks: seq<Bytes>, i: nat)
    requires i <= |blocks|
    ensures Joined(blocks, i) == if i == |blocks| then [] else blocks[i] + Joined(blocks, i + 1)
  {
  }

  lemma {:induction false} JoinedShift(first: Bytes, rest: seq<Bytes>, i: nat)
    requires i <= |rest|
    ensures Joined([first] + rest, i + 1) == Joined(rest, i)
    decreases |rest| - i
  {
    hide Joined;
    JoinedUnfold([first] + rest, i + 1);
    JoinedUnfold(rest, i);
    if i < |rest| { JoinedShift(first, rest, i + 1); }
  }

  lemma CompressionRoundTrip(rows: Bytes)
    requires rows != []
    ensures Decompress(Compressed(rows)) == Some(rows)
  {
    hide Inflate, Stored, Pieces, Big, FromBig, Adler, Joined;
    var sum := Big(Adler(rows), 4);
    var stored := Stored(Pieces(rows), 0);
    PiecesJoin(rows);
    StoredRoundTrip(Pieces(rows), 0, sum);
    Limits();
    BigRoundTrip(Adler(rows), 4);
    WrapperHeader(stored + sum);
    assert Compressed(rows) == [0x78, 0x01] + (stored + sum);
  }

  lemma WrapperHeader(body: Bytes)
    ensures var s: Bytes := [0x78, 0x01] + body;
            && |s| >= 2 && s[0] == 0x78 && s[1] == 0x01 && s[2..] == body
            && FromBig(s[..2]) % 31 == 0
  {
    var head: Bytes := [0x78, 0x01];
    assert head[..1] == [0x78] && FromBig(head) == 30721;
    assert (head + body)[..2] == head;
  }

  lemma FilteredIsNotEmpty(data: Bytes, stride: nat)
    requires stride > 0 && data != []
    ensures Filtered(data, stride) != []
  {
  }

  lemma Grid(size: nat)
    requires size > 0
    ensures 4 * (size * size) == size * (4 * size) && 4 * (size * size) > 0
  {
  }

  /** Reading what was written gives back the size and every pixel byte. */
  lemma WriteRoundTrip(size: nat, data: Bytes, crc: Checksum)
    requires size > 0 && |data| == 4 * (size * size) && Write(size, data, crc).Some?
    ensures Read(Write(size, data, crc).value, crc) == Some(Image(size, size, data))
  {
    hide Filtered, Compressed, Unfilter, Decompress, Big, FromBig, ReadChunk;
    var rows := Filtered(data, 4 * size);
    var packed := Compressed(rows);
    Grid(size);
    FilteredIsNotEmpty(data, 4 * size);
    FilterRoundTrip(data, 4 * size, size);
    CompressionRoundTrip(rows);
    Limits();
    BigRoundTrip(size, 4);
    var header, body, end :=
          Chunk(IHDR, Header(size), crc).value, Chunk(IDAT, packed, crc).value, Chunk(IEND, [], crc).value;
    hide Chunk;
    var s := SIGNATURE + header + body + end;
    assert s[8..] == header + (body + end) && s[..8] == SIGNATURE;
    ChunkRoundTrip(IHDR, Header(size), body + end, crc);
    assert Header(size)[..4] == Big(size, 4) && Header(size)[4..8] == Big(size, 4)
           && Header(size)[8..] == [8, 6, 0, 0, 0];
    ChunkRoundTrip(IDAT, packed, end, crc);
    ChunkRoundTrip(IEND, [], [], crc);
    assert end + [] == end;
  }

  lemma {:induction false} StoredLength(blocks: seq<Bytes>, i: nat)
    requires i <= |blocks| && forall b | b in blocks :: |b| <= STORED_LIMIT
    ensures |Stored(blocks, i)| == |Joined(blocks, i)| + 5 * (|blocks| - i)
    decreases |blocks| - i
  {
    if i < |blocks| { StoredLength(blocks, i + 1); }
  }

  lemma {:induction false} FilteredLength(data: Bytes, stride: nat, rows: nat)
    requires stride > 0 && |data| == rows * stride
    ensures |Filtered(data, stride)| == rows * (stride + 1)
    decreases rows
  {
    if rows > 0 {
      assert rows * stride == stride + (rows - 1) * stride;
      FilteredLength(data[stride..], stride, rows - 1);
      assert rows * (stride + 1) == (stride + 1) + (rows - 1) * (stride + 1);
      if |data| <= stride { assert data[stride..] == []; }
    }
  }

  /** Every icon size fits the four-byte fields. */
  lemma IconSizesFit(size: nat, data: Bytes, crc: Checksum)
    requires 0 < size <= 256 && |data| == 4 * (size * size)
    ensures Write(size, data, crc).Some?
  {
    hide Stored, Pieces, Joined, Adler, Filtered;
    Grid(size);
    FilteredLength(data, 4 * size, size);
    var rows := Filtered(data, 4 * size);
    assert |rows| <= 256 * 1025 by { Bound(size, 256, 4 * size + 1, 1025); }
    PiecesJoin(rows);
    StoredLength(Pieces(rows), 0);
  }

  lemma Bound(a: nat, b: nat, c: nat, d: nat)
    requires a <= b && c <= d
    ensures a * c <= b * d
  {
    assert a * c <= b * c by { assert (b - a) * c >= 0; }
    assert b * c <= b * d by { assert b * (d - c) >= 0; }
  }
}
