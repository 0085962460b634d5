/** The icon container: a directory of sixteen-byte entries with running offsets, then the images. */
module Ico {
  import opened Basics
  import opened ByteOrder

  datatype Icon = Icon(size: nat, image: Bytes)

  function EntryBytes(icon: Icon, offset: nat): (s: Bytes)
    ensures |s| == 16
  {
    [icon.size % 256, icon.size % 256, 0, 0] + Little(1, 2) + Little(32, 2) + Little(|icon.image|, 4)
      + Little(offset, 4)
  }

  /** Bytes of the first `n` images. */
  function Payload(icons: seq<Icon>, n: nat): Bytes
    requires n <= |icons|
  {
    if n == 0 then [] else Payload(icons, n - 1) + icons[n - 1].image
  }

  /** Where image `i` starts: behind the directory and the images before it. */
  function Offset(icons: seq<Icon>, i: nat): nat
    requires i <= |icons|
  {
    6 + 16 * |icons| + |Payload(icons, i)|
  }

  function Directory(icons: seq<Icon>, n: nat): (s: Bytes)
    requires n <= |icons|
    ensures |s| == 16 * n
  {
    if n == 0 then [] else Directory(icons, n - 1) + EntryBytes(icons[n - 1], Offset(icons, n - 1))
  }

  function Layout(icons: seq<Icon>): Bytes {
    [0, 0, 1, 0] + Little(|icons|, 2) + Directory(icons, |icons|) + Payload(icons, |icons|)
  }

  predicate EntryFits(icons: seq<Icon>, i: nat)
    requires i < |icons|
  {
    |icons[i].image| < 0x1_0000_0000 && Offset(icons, i) < 0x1_0000_0000
  }

  /** Every field holds its value. */
  predicate Fits(icons: seq<Icon>) { |icons| < 65536 && forall i | 0 <= i < |icons| :: EntryFits(icons, i) }

  /** The writer: one pass with a running offset; None when a field overflows. */
  method Write(icons: seq<Icon>) returns (r: Option<Bytes>)
    ensures r == if Fits(icons) then Some(Layout(icons)) else None
  {
    var offset := 6 + 16 * |icons|;
    var entries: Bytes := [];
    var payload: Bytes := [];
    for i := 0 to |icons|
      invariant offset == Offset(icons, i) && entries == Directory(icons, i) && payload == Payload(icons, i)
      invariant forall k | 0 <= k < i :: EntryFits(icons, k)
    {
      if |icons[i].image| >= 0x1_0000_0000 || offset >= 0x1_0000_0000 {
        assert !EntryFits(icons, i);
        return None;
      }
      entries := entries + EntryBytes(icons[i], offset);
      payload := payload + icons[i].image;
      offset := offset + |icons[i].image|;
    }
    if |icons| >= 65536 { return None; }
    return Some([0, 0, 1, 0] + Little(|icons|, 2) + entries + payload);
  }

  // ------------------------------------------------ a reader

  /** One directory entry and the image it points at; a width of zero stands for 256. */
  function ReadEntry(s: Bytes, i: nat): Option<Icon>
    requires 6 + 16 * i + 16 <= |s|
  {
    var p := 6 + 16 * i;
    var length, offset := FromLittle(s[p + 8..p + 12]), FromLittle(s[p + 12..p + 16]);
    if s[p] != s[p + 1] || offset + length > |s| then None
    else Some(Icon(if s[p] == 0 then 256 else s[p], s[offset..offset + length]))
  }

  function ReadEntries(s: Bytes, n: nat): Option<seq<Icon>>
    requires 6 + 16 * n <= |s|
  {
    if n == 0 then Some([])
    else
      var front, last := ReadEntries(s, n - 1), ReadEntry(s, n - 1);
      if front.None? || last.None? then None else Some(front.value + [last.value])
  }

  function Read(s: Bytes): Option<seq<Icon>> {
    if |s| < 6 || s[..4] != [0, 0, 1, 0] || |s| < 6 + 16 * FromLittle(s[4..6]) then None
    else ReadEntries(s, FromLittle(s[4..6]))
  }

  // ------------------------------------------------ what the offsets mean

  lemma {:induction false} PayloadSlice(icons: seq<Icon>, n: nat, i: nat)
    requires i < n <= |icons|
    ensures |Payload(icons, i)| + |icons[i].image| == |Payload(icons, i + 1)| <= |Payload(icons, n)|
    ensures Payload(icons, n)[|Payload(icons, i)|..|Payload(icons, i + 1)|] == icons[i].image
  {
    PayloadGrows(icons, n);
    hide Payload;
    if i < n - 1 {
      PayloadSlice(icons, n - 1, i);
      FrontSlice(Payload(icons, n - 1), icons[n - 1].image, |Payload(icons, i)|, |Payload(icons, i + 1)|);
    }
  }

  lemma FrontSlice(front: Bytes, tail: Bytes, a: nat, b: nat)
    requires a <= b <= |front|
    ensures (front + tail)[a..b] == front[a..b]
  {
  }

  lemma PayloadGrows(icons: seq<Icon>, n: nat)
    requires 0 < n <= |icons|
    ensures Payload(icons, n) == Payload(icons, n - 1) + icons[n - 1].image
  {
  }

  lemma {:induction false} DirectorySlice(icons: seq<Icon>, n: nat, i: nat)
    requires i < n <= |icons|
    ensures Directory(icons, n)[16 * i..16 * i + 16] == EntryBytes(icons[i], Offset(icons, i))
  {
    hide EntryBytes, Offset;
    if i < n - 1 {
      DirectorySlice(icons, n - 1, i);
      assert Directory(icons, n)[16 * i..16 * i + 16] == Directory(icons, n - 1)[16 * i..16 * i + 16];
    }
  }

  lemma EntryFields(icon: Icon, offset: nat)
    requires |icon.image| < 0x1_0000_0000 && offset < 0x1_0000_0000
    ensures
      var e := EntryBytes(icon, offset);
      e[0] == icon.size % 256 == e[1] && FromLittle(e[8..12]) == |icon.image| && FromLittle(e[12..16]) == offset
  {
    hide Little, FromLittle;
    Limits();
    LittleRoundTrip(|icon.image|, 4);
    LittleRoundTrip(offset, 4);
    var e := EntryBytes(icon, offset);
    assert e[8..12] == Little(|icon.image|, 4) && e[12..16] == Little(offset, 4);
  }

  lemma LayoutParts(icons: seq<Icon>)
    ensures
      var s, n := Layout(icons), |icons|;
      && |s| == Offset(icons, n) && s[..4] == [0, 0, 1, 0] && s[4..6] == Little(n, 2)
      && s[6..6 + 16 * n] == Directory(icons, n) && s[6 + 16 * n..] == Payload(icons, n)
  {
    hide Directory, Payload, Little;
  }

  /** The images tile the rest of the file, in order, without gap or overlap. */
  lemma PayloadIsTiled(icons: seq<Icon>, i: nat)
    requires i < |icons|
    ensures Offset(icons, 0) == 6 + 16 * |icons| && Offset(icons, |icons|) == |Layout(icons)|
    ensures Offset(icons, i) + |icons[i].image| == Offset(icons, i + 1) <= |Layout(icons)|
    ensures Layout(icons)[Offset(icons, i)..Offset(icons, i + 1)] == icons[i].image
  {
    assert Payload(icons, 0) == [];
    hide Layout, Payload, Directory, Little;
    var s, base := Layout(icons), 6 + 16 * |icons|;
    LayoutTail(icons);
    PayloadSlice(icons, |icons|, i);
    Subslice(s, base, |s|, |Payload(icons, i)|, |Payload(icons, i + 1)|);
  }

  lemma LayoutTail(icons: seq<Icon>)
    ensures |Layout(icons)| == Offset(icons, |icons|)
    ensures Layout(icons)[6 + 16 * |icons|..|Layout(icons)|] == Payload(icons, |icons|)
  {
    LayoutParts(icons);
    hide Layout, Payload;
  }

  lemma Subslice(s: Bytes, base: nat, end: nat, from: nat, to: nat)
    requires from <= to && base + to <= end <= |s|
    ensures s[base..end][from..to] == s[base + from..base + to]
  {
    var whole, slice := s[base..end][from..to], s[base + from..base + to];
    forall k | 0 <= k < to - from ensures whole[k] == slice[k] {
      assert whole[k] == s[base..end][from + k] == s[base + (from + k)];
    }
  }

  lemma EntrySlice(icons: seq<Icon>, i: nat)
    requires i < |icons|
    ensures 6 + 16 * i + 16 <= |Layout(icons)|
    ensures Layout(icons)[6 + 16 * i..6 + 16 * i + 16] == EntryBytes(icons[i], Offset(icons, i))
  {
    hide Layout, Directory, EntryBytes, Payload;
    LayoutParts(icons);
    DirectorySlice(icons, |icons|, i);
    Subslice(Layout(icons), 6, 6 + 16 * |icons|, 16 * i, 16 * i + 16);
  }

  /** Each directory entry leads to exactly its own image. */
  lemma EntryRoundTrip(icons: seq<Icon>, i: nat)
    requires Fits(icons) && i < |icons| && 0 < icons[i].size <= 256
    ensures 6 + 16 * i + 16 <= |Layout(icons)|
    ensures ReadEntry(Layout(icons), i) == Some(icons[i])
  {
    hide Layout, EntryBytes, FromLittle, Payload, Offset;
    var s, p := Layout(icons), 6 + 16 * i;
    assert EntryFits(icons, i);
    EntrySlice(icons, i);
    EntryFields(icons[i], Offset(icons, i));
    PayloadIsTiled(icons, i);
    var e := s[p..p + 16];
    assert e[0] == s[p] && e[1] == s[p + 1] && e[8..12] == s[p + 8..p + 12] && e[12..16] == s[p + 12..p + 16];
  }

  lemma {:induction false} EntriesRoundTrip(icons: seq<Icon>, n: nat)
    requires Fits(icons) && n <= |icons| && 6 + 16 * n <= |Layout(icons)|
    requires forall i | 0 <= i < |icons| :: 0 < icons[i].size <= 256
    ensures ReadEntries(Layout(icons), n) == Some(icons[..n])
  {
    hide Fits, Layout, ReadEntry;
    if n > 0 {
      EntriesRoundTrip(icons, n - 1);
      EntryRoundTrip(icons, n - 1);
      assert icons[..n] == icons[..n - 1] + [icons[n - 1]];
    }
  }

  lemma ReadRoundTrip(icons: seq<Icon>)
    requires Fits(icons) && forall i | 0 <= i < |icons| :: 0 < icons[i].size <= 256
    ensures Read(Layout(icons)) == Some(icons)
  {
    hide Layout, Directory, FromLittle, Little;
    LayoutParts(icons);
    Limits();
    LittleRoundTrip(|icons|, 2);
    EntriesRoundTrip(icons, |icons|);
    assert icons[..|icons|] == icons;
  }
}
