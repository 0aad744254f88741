/** Client buffers: copying them out of the shared pool, and widening 10-bit colour. */
module Pixels {
  import opened Prelude

  type Byte8 = bv8

  datatype Format = Bgra8888 | Rgb2101010 | Rgba16F

  const XRGB2101010: U32 := 0x3033_5258
  const ARGB2101010: U32 := 0x3033_5241
  const ABGR16161616F: U32 := 0x4834_4241

  /** A format and its bytes per pixel; unknown codes are taken as 8-bit BGRA. */
  function ShmFormat(code: U32): (Format, nat) {
    if code == XRGB2101010 || code == ARGB2101010 then (Rgb2101010, 4)
    else if code == ABGR16161616F then (Rgba16F, 8)
    else (Bgra8888, 4)
  }

  function BytesPerPixel(format: Format): I32 {
    if format == Rgba16F then 8 else 4
  }

  datatype Shm = Shm(offset: I32, width: I32, height: I32, stride: I32, format: U32)

  datatype PixelBuf = PixelBuf(width: I32, height: I32, stride: I32, format: Format, bytes: seq<Byte8>)

  // ---- copying a buffer --------------------------------------------------

  const USIZE: nat := 0x1_0000_0000_0000_0000

  function CheckedMul(a: nat, b: nat): Option<nat> { if a * b < USIZE then Some(a * b) else None }

  function CheckedAdd(a: nat, b: nat): Option<nat> { if a + b < USIZE then Some(a + b) else None }

  /** What asking for a buffer's pixels comes to; when memory runs out the process aborts. */
  datatype Copy = Copied(buf: PixelBuf) | Refused | Aborted

  /** The pool is missing when it could not be mapped; `room` is the largest allocation that
      can be served. The bytes are allocated before the pool is looked at. */
  function BufferToPixels(b: Shm, pool: Option<seq<Byte8>>, room: nat): Copy {
    if b.width <= 0 || b.height <= 0 || b.offset < 0 || b.stride < 0 then Refused
    else
      var (format, bpp) := ShmFormat(b.format);
      match CheckedMul(b.width, bpp)
      case None => Refused
      case Some(row) =>
        if b.stride < row then Refused
        else match CheckedMul(b.stride, b.height)
          case None => Refused
          case Some(len) =>
            match CheckedAdd(b.offset, len)
            case None => Refused
            case Some(end) =>
              if len > room then Aborted
              else if pool.None? || end > |pool.value| then Refused
              else Copied(PixelBuf(b.width, b.height, b.stride, format, pool.value[b.offset..end]))
  }

  /** The fields describe rows that hold their pixels, anywhere. */
  predicate Plausible(b: Shm) {
    b.width > 0 && b.height > 0 && b.offset >= 0 && b.stride >= b.width * ShmFormat(b.format).1
  }

  function Extent(b: Shm): int { b.stride * b.height }

  /** The buffer lies inside the pool, in unbounded arithmetic. */
  predicate Fits(b: Shm, pool: Option<seq<Byte8>>) {
    Plausible(b) && pool.Some? && b.offset + Extent(b) <= |pool.value|
  }

  lemma ProductBound(a: int, b: int, n: nat, m: nat)
    requires 0 <= a < n && 0 <= b < m
    ensures 0 <= a * b <= n * m
  {
    assert a * b <= n * b <= n * m;
  }

  /** For all fields a client may choose and whatever the pool: the process aborts iff the
      fields are plausible and ask for more than there is room for. Otherwise there is a
      copy iff the buffer lies inside the pool, and it is exactly that slice. */
  lemma CopyExact(b: Shm, pool: Option<seq<Byte8>>, room: nat)
    ensures var copy := BufferToPixels(b, pool, room);
            && (copy.Aborted? <==> Plausible(b) && Extent(b) > room)
            && (copy.Copied? <==> Fits(b, pool) && Extent(b) <= room)
            && (copy.Copied? ==> copy.buf == PixelBuf(b.width, b.height, b.stride, ShmFormat(b.format).0,
                                                      pool.value[b.offset..b.offset + Extent(b)]))
  {
    if b.width > 0 && b.height > 0 && b.stride >= 0 {
      ProductBound(b.stride, b.height, 0x8000_0000, 0x8000_0000);
    }
  }

  /** The largest request the fields allow: about 2^62 bytes. */
  const LARGEST: nat := 0x7fff_ffff * 0x7fff_ffff

  /** A buffer of one-pixel rows that asks for it. */
  const HUGE := Shm(0, 1, 0x7fff_ffff, 0x7fff_ffff, 0)

  /** It aborts the process on every machine with less room, however small the pool. */
  lemma HugeAborts(pool: Option<seq<Byte8>>, room: nat)
    requires room < LARGEST
    ensures BufferToPixels(HUGE, pool, room) == Aborted
  {
    CopyExact(HUGE, pool, room);
  }

  /** No field a client may choose aborts the process iff there is room for the largest
      request. */
  lemma NeverAbortsIff(room: nat)
    ensures (forall b, pool :: !BufferToPixels(b, pool, room).Aborted?) <==> room >= LARGEST
  {
    forall b, pool | room >= LARGEST ensures !BufferToPixels(b, pool, room).Aborted? {
      CopyExact(b, pool, room);
      if Plausible(b) { ExtentBound(b); }
    }
    if room < LARGEST { HugeAborts(None, room); }
  }

  lemma ExtentBound(b: Shm)
    requires Plausible(b)
    ensures Extent(b) <= LARGEST
  {
    ProductLe(b.stride, b.height, 0x7fff_ffff);
  }

  lemma ProductLe(a: nat, b: nat, n: nat)
    requires a <= n && b <= n
    ensures a * b <= n * n
  {
    assert a * b <= a * n <= n * n;
  }

  // ---- guards before drawing ---------------------------------------------

  /** A cast of a 32-bit number to a 64-bit size. */
  function AsSize(x: I32): nat { if x >= 0 then x else x + USIZE }

  /** The checks before an image is built; the row's bytes are a 32-bit product and the
      image's a 64-bit one. */
  predicate Guards(width: I32, height: I32, stride: I32, len: nat, format: Format) {
    && width > 0 && height > 0 && stride >= WrapI32(width * BytesPerPixel(format))
    && len >= (AsSize(stride) * AsSize(height)) % USIZE
  }

  /** Every row and pixel of a 10-bit image lies inside the bytes. */
  predicate Covers(width: int, height: int, stride: int, len: int) {
    width > 0 && height > 0 && stride >= 0 && (height - 1) * stride + 4 * width <= len
  }

  /** A row's bytes do not overflow 32 bits. */
  predicate RowFits(width: I32) { 4 * width < 0x8000_0000 }

  /** Then the checks make the loop safe, however many bytes there are. */
  lemma GuardsCover(width: I32, height: I32, stride: I32, len: nat)
    requires Guards(width, height, stride, len, Rgb2101010) && RowFits(width)
    ensures Covers(width, height, stride, len)
  {
    WrapI32Id(4 * width);
    ProductBound(stride, height, 0x8000_0000, 0x8000_0000);
    assert (height - 1) * stride + stride == stride * height;
  }

  /** The fewest bytes the checks accept. */
  function Fewest(height: I32, stride: I32): nat { (AsSize(stride) * AsSize(height)) % USIZE }

  /** The checks make the loop safe for every number of bytes they accept iff a row's bytes
      do not overflow 32 bits. */
  lemma GuardsCoverIff(width: I32, height: I32, stride: I32)
    requires width > 0 && height > 0 && stride >= WrapI32(4 * width)
    ensures (forall len: nat :: Guards(width, height, stride, len, Rgb2101010) ==> Covers(width, height, stride, len))
            <==> RowFits(width)
  {
    if RowFits(width) {
      forall len: nat | Guards(width, height, stride, len, Rgb2101010) ensures Covers(width, height, stride, len) {
        GuardsCover(width, height, stride, len);
      }
    } else {
      assert Guards(width, height, stride, Fewest(height, stride), Rgb2101010);
      if stride >= 0 { ProductBound(stride, height, 0x8000_0000, 0x8000_0000); }
      assert (height - 1) * stride + stride == stride * height;
      assert !Covers(width, height, stride, Fewest(height, stride));
    }
  }

  /** A width that overflows passes the checks with no bytes at all. */
  lemma GuardsWrap()
    ensures Guards(0x4000_0000, 1, 0, 0, Rgb2101010) && !Covers(0x4000_0000, 1, 0, 0)
  {
  }

  /** Every copied 10-bit buffer passes the checks and is safe to widen. */
  lemma CopiedIsSafe(b: Shm, pool: Option<seq<Byte8>>, room: nat)
    requires BufferToPixels(b, pool, room).Copied? && BufferToPixels(b, pool, room).buf.format == Rgb2101010
    ensures var p := BufferToPixels(b, pool, room).buf;
            Guards(p.width, p.height, p.stride, |p.bytes|, p.format) && Covers(p.width, p.height, p.stride, |p.bytes|)
  {
    CopyExact(b, pool, room);
    ProductBound(b.stride, b.height, 0x8000_0000, 0x8000_0000);
    WrapI32Id(4 * b.width);
    GuardsCover(b.width, b.height, b.stride, b.stride * b.height);
  }

  // ---- widening 10-bit channels ------------------------------------------

  /** Ten bits spread over sixteen: the low bits repeat the high ones. */
  function Widen(c: bv32): bv32 { (c << 6) | (c >> 4) }

  /** A widened channel fits 16 bits and gives the channel back. */
  lemma WidenKeeps(c: bv32)
    requires c < 1024
    ensures Widen(c) < 0x1_0000 && Widen(c) >> 6 == c
  {
  }

  lemma WidenOrder(c: bv32, d: bv32)
    requires c < d < 1024
    ensures Widen(c) < Widen(d)
  {
  }

  /** What widening is in numbers. */
  lemma WidenValue(c: bv32)
    requires c < 1024
    ensures Widen(c) as int == 64 * (c as int) + ((c >> 4) as int)
  {
  }

  lemma NibbleValue(c: bv32)
    requires c < 1024
    ensures (c >> 4) as int == (c as int) / 16 && c as int < 1024
  {
  }

  /** It is less than one 16-bit step from the exact scaling c * 65535 / 1023. */
  lemma WidenClose(c: bv32)
    requires c < 1024
    ensures -1023 < 1023 * (Widen(c) as int) - 65535 * (c as int) < 1023
  {
    WidenValue(c);
    NibbleValue(c);
    CloseInNumbers(c as int, Widen(c) as int);
  }

  lemma CloseInNumbers(n: int, e: int)
    requires 0 <= n < 1024 && e == 64 * n + n / 16
    ensures -1023 < 1023 * e - 65535 * n < 1023
  {
  }

  function Word(pixels: seq<Byte8>, i: nat): bv32
    requires i + 4 <= |pixels|
  {
    Join(pixels[i], pixels[i + 1], pixels[i + 2], pixels[i + 3])
  }

  /** Four bytes as a little-endian number. */
  function Join(b0: Byte8, b1: Byte8, b2: Byte8, b3: Byte8): bv32 {
    (b0 as bv32) | (b1 as bv32 << 8) | (b2 as bv32 << 16) | (b3 as bv32 << 24)
  }

  /** Red, green and blue from bit 20, 10 and 0. */
  function Channel(v: bv32, k: nat): bv32
    requires k < 3
  {
    (if k == 0 then v >> 20 else if k == 1 then v >> 10 else v) & 0x3ff
  }

  function Lo(c: bv32): Byte8 { (c & 0xff) as bv8 }
  function Hi(c: bv32): Byte8 { ((c >> 8) & 0xff) as bv8 }

  /** The eight bytes of one widened pixel, alpha opaque. */
  function PixelBytes(v: bv32): (r: seq<Byte8>)
    ensures |r| == 8
  {
    var (r, g, b) := (Widen(Channel(v, 0)), Widen(Channel(v, 1)), Widen(Channel(v, 2)));
    [Lo(r), Hi(r), Lo(g), Hi(g), Lo(b), Hi(b), 0xff, 0xff]
  }

  /** A 16-bit little-endian value of the output. */
  function Read16(out: seq<Byte8>, i: nat): bv32
    requires i + 2 <= |out|
  {
    (out[i] as bv32) | (out[i + 1] as bv32 << 8)
  }

  lemma Halves(c: bv32)
    requires c < 0x1_0000
    ensures (Lo(c) as bv32) | (Hi(c) as bv32 << 8) == c
  {
  }

  lemma PixelBytesAt(v: bv32, k: nat)
    requires k < 3
    ensures PixelBytes(v)[2 * k] == Lo(Widen(Channel(v, k))) && PixelBytes(v)[2 * k + 1] == Hi(Widen(Channel(v, k)))
  {
  }

  /** The channels of a widened pixel read back. */
  lemma PixelReads(v: bv32, k: nat)
    requires k < 3
    ensures Read16(PixelBytes(v), 2 * k) == Widen(Channel(v, k))
  {
    var c := Channel(v, k);
    ChannelSmall(v, k);
    WidenKeeps(c);
    Halves(Widen(c));
    PixelBytesAt(v, k);
  }

  lemma OpaqueReads(v: bv32)
    ensures Read16(PixelBytes(v), 6) == 0xffff
  {
  }

  lemma ChannelSmall(v: bv32, k: nat)
    requires k < 3
    ensures Channel(v, k) < 1024
  {
  }

  /** Where the input and the output of a pixel are. */
  function From(stride: nat, x: nat, y: nat): nat { y * stride + x * 4 }
  function To(width: nat, x: nat, y: nat): nat { (y * width + x) * 8 }

  lemma FromInside(width: nat, height: nat, stride: nat, len: nat, x: nat, y: nat)
    requires Covers(width, height, stride, len) && x < width && y < height
    ensures From(stride, x, y) + 4 <= len
  {
    assert y * stride <= (height - 1) * stride;
  }

  lemma ToInside(width: nat, height: nat, x: nat, y: nat)
    requires x < width && y < height
    ensures To(width, x, y) + 8 <= width * height * 8
  {
    assert y * width <= (height - 1) * width;
  }

  /** Different pixels are written to different places, in order. */
  lemma ToApart(width: nat, x: nat, y: nat, x': nat, y': nat)
    requires x < width && x' < width && (y < y' || (y == y' && x < x'))
    ensures To(width, x, y) + 8 <= To(width, x', y')
  {
    if y < y' { assert (y + 1) * width <= y' * width; }
  }

  /** The pixel at a place of the output is the widened input pixel. */
  predicate Widened(out: seq<Byte8>, pixels: seq<Byte8>, width: nat, stride: nat, x: nat, y: nat) {
    && From(stride, x, y) + 4 <= |pixels| && To(width, x, y) + 8 <= |out|
    && out[To(width, x, y)..To(width, x, y) + 8] == PixelBytes(Word(pixels, From(stride, x, y)))
  }

  /** Widens a whole image, row by row; every pixel of the output is that of the input. */
  method Expand(width: nat, height: nat, stride: nat, pixels: seq<Byte8>) returns (out: seq<Byte8>)
    requires Covers(width, height, stride, |pixels|)
    ensures |out| == width * height * 8
    ensures forall x, y :: 0 <= x < width && 0 <= y < height ==> Widened(out, pixels, width, stride, x, y)
  {
    var buf := new Byte8[width * height * 8](_ => 0);
    var y := 0;
    while y < height
      invariant y <= height
      invariant DoneTo(buf[..], pixels, width, stride, 0, y)
    {
      var x := 0;
      while x < width
        invariant x <= width
        invariant DoneTo(buf[..], pixels, width, stride, x, y)
      {
        FromInside(width, height, stride, |pixels|, x, y);
        ToInside(width, height, x, y);
        ghost var was := buf[..];
        WritePixel(buf, To(width, x, y), Word(pixels, From(stride, x, y)));
        PixelDone(was, buf[..], pixels, width, stride, x, y, To(width, x, y));
        x := x + 1;
      }
      y := y + 1;
    }
    out := buf[..];
  }

  /** Every pixel before `(x, y)` in row order is done. */
  ghost predicate DoneTo(out: seq<Byte8>, pixels: seq<Byte8>, width: nat, stride: nat, x: nat, y: nat) {
    forall x', y' :: 0 <= x' < width && 0 <= y' && (y' < y || (y' == y && x' < x)) ==> Widened(out, pixels, width, stride, x', y')
  }

  /** Writing the next pixel leaves the earlier ones done. */
  lemma PixelDone(was: seq<Byte8>, now: seq<Byte8>, pixels: seq<Byte8>, width: nat, stride: nat, x: nat, y: nat, o: nat)
    requires x < width && DoneTo(was, pixels, width, stride, x, y)
    requires o == To(width, x, y) && o + 8 <= |was| == |now| && now[..o] == was[..o]
    ensures Widened(now, pixels, width, stride, x, y) ==> DoneTo(now, pixels, width, stride, x + 1, y)
  {
    forall x', y' | 0 <= x' < width && 0 <= y' && (y' < y || (y' == y && x' < x))
      ensures Widened(now, pixels, width, stride, x', y')
    {
      assert Widened(was, pixels, width, stride, x', y');
      ToApart(width, x', y', x, y);
      Untouched(was, now, To(width, x, y), To(width, x', y'));
    }
  }

  lemma Untouched(was: seq<Byte8>, now: seq<Byte8>, o: nat, p: nat)
    requires p + 8 <= o <= |was| && |now| == |was| && now[..o] == was[..o]
    ensures now[p..p + 8] == was[p..p + 8]
  {
    assert now[p..p + 8] == now[..o][p..p + 8];
    assert was[p..p + 8] == was[..o][p..p + 8];
  }

  method WritePixel(buf: array<Byte8>, o: nat, v: bv32)
    requires o + 8 <= buf.Length
    modifies buf
    ensures buf[..][o..o + 8] == PixelBytes(v)
    ensures buf[..][..o] == old(buf[..])[..o] && buf[..][o + 8..] == old(buf[..])[o + 8..]
  {
    var (r, g, b) := (Widen(Channel(v, 0)), Widen(Channel(v, 1)), Widen(Channel(v, 2)));
    Write2(buf, o, Lo(r), Hi(r));
    Write2(buf, o + 2, Lo(g), Hi(g));
    Write2(buf, o + 4, Lo(b), Hi(b));
    Write2(buf, o + 6, 0xff, 0xff);
  }

  method Write2(buf: array<Byte8>, o: nat, lo: Byte8, hi: Byte8)
    requires o + 2 <= buf.Length
    modifies buf
    ensures buf[o] == lo && buf[o + 1] == hi
    ensures forall k :: 0 <= k < buf.Length && k != o && k != o + 1 ==> buf[k] == old(buf[k])
  {
    buf[o], buf[o + 1] := lo, hi;
  }

  lemma WidenedReads(out: seq<Byte8>, pixels: seq<Byte8>, width: nat, stride: nat, x: nat, y: nat, k: nat)
    requires Widened(out, pixels, width, stride, x, y) && k < 3
    ensures Read16(out, To(width, x, y) + 2 * k) == Widen(Channel(Word(pixels, From(stride, x, y)), k))
    ensures Read16(out, To(width, x, y) + 6) == 0xffff
  {
    ChannelAt(out, To(width, x, y), Word(pixels, From(stride, x, y)), k);
    OpaqueAt(out, To(width, x, y), Word(pixels, From(stride, x, y)));
  }

  lemma ChannelAt(out: seq<Byte8>, o: nat, v: bv32, k: nat)
    requires k < 3 && o + 8 <= |out| && out[o..o + 8] == PixelBytes(v)
    ensures Read16(out, o + 2 * k) == Widen(Channel(v, k))
  {
    PixelReads(v, k);
    ReadInside(out, o, PixelBytes(v), 2 * k);
  }

  lemma OpaqueAt(out: seq<Byte8>, o: nat, v: bv32)
    requires o + 8 <= |out| && out[o..o + 8] == PixelBytes(v)
    ensures Read16(out, o + 6) == 0xffff
  {
    OpaqueReads(v);
    ReadInside(out, o, PixelBytes(v), 6);
  }

  /** Every channel of every pixel of the output gives the input's ten bits back. */
  lemma ChannelsRecovered(out: seq<Byte8>, pixels: seq<Byte8>, width: nat, stride: nat, x: nat, y: nat, k: nat)
    requires Widened(out, pixels, width, stride, x, y) && k < 3
    ensures Read16(out, To(width, x, y) + 2 * k) >> 6 == Channel(Word(pixels, From(stride, x, y)), k)
  {
    var c := Channel(Word(pixels, From(stride, x, y)), k);
    WidenedReads(out, pixels, width, stride, x, y, k);
    ChannelSmall(Word(pixels, From(stride, x, y)), k);
    WidenKeeps(c);
  }

  lemma ReadInside(out: seq<Byte8>, o: nat, part: seq<Byte8>, i: nat)
    requires |part| == 8 && i + 2 <= 8 && o + 8 <= |out| && out[o..o + 8] == part
    ensures Read16(out, o + i) == Read16(part, i)
  {
    InSlice(out, o, part, i);
    InSlice(out, o, part, i + 1);
  }

  lemma InSlice<T>(out: seq<T>, o: nat, part: seq<T>, i: nat)
    requires o + |part| <= |out| && out[o..o + |part|] == part && i < |part|
    ensures out[o + i] == part[i]
  {
    assert out[o..o + |part|][i] == out[o + i];
  }

  // ---- in bytes ----------------------------------------------------------

  /** The ten bits of each colour, read off the four bytes of a pixel. */
  function Red(b2: Byte8, b3: Byte8): bv32 { ((b3 & 0x3f) as bv32 << 4) | (b2 as bv32 >> 4) }
  function Green(b1: Byte8, b2: Byte8): bv32 { ((b2 & 0x0f) as bv32 << 6) | (b1 as bv32 >> 2) }
  function Blue(b0: Byte8, b1: Byte8): bv32 { ((b1 & 0x03) as bv32 << 8) | (b0 as bv32) }

  /** The upper ten bits of a little-endian value. */
  function Upper(lo: Byte8, hi: Byte8): bv32 { (hi as bv32 << 2) | (lo as bv32 >> 6) }

  predicate Channels(v: bv32, b0: Byte8, b1: Byte8, b2: Byte8, b3: Byte8) {
    Channel(v, 0) == Red(b2, b3) && Channel(v, 1) == Green(b1, b2) && Channel(v, 2) == Blue(b0, b1)
  }

  lemma JoinRed(b0: Byte8, b1: Byte8, b2: Byte8, b3: Byte8)
    ensures Channel(Join(b0, b1, b2, b3), 0) == Red(b2, b3)
  {
  }

  lemma JoinGreen(b0: Byte8, b1: Byte8, b2: Byte8, b3: Byte8)
    ensures Channel(Join(b0, b1, b2, b3), 1) == Green(b1, b2)
  {
  }

  lemma JoinBlue(b0: Byte8, b1: Byte8, b2: Byte8, b3: Byte8)
    ensures Channel(Join(b0, b1, b2, b3), 2) == Blue(b0, b1)
  {
  }

  lemma JoinChannels(b0: Byte8, b1: Byte8, b2: Byte8, b3: Byte8)
    ensures Channels(Join(b0, b1, b2, b3), b0, b1, b2, b3)
  {
    JoinRed(b0, b1, b2, b3);
    JoinGreen(b0, b1, b2, b3);
    JoinBlue(b0, b1, b2, b3);
  }

  lemma UpperWiden(c: bv32)
    requires c < 1024
    ensures Upper(Lo(Widen(c)), Hi(Widen(c))) == c
  {
  }

  /** A pair of output bytes has the channel on top. */
  lemma PairUpper(out: seq<Byte8>, o: nat, v: bv32, k: nat)
    requires k < 3 && o + 8 <= |out| && out[o..o + 8] == PixelBytes(v)
    ensures Upper(out[o + 2 * k], out[o + 2 * k + 1]) == Channel(v, k)
  {
    InSlice(out, o, PixelBytes(v), 2 * k);
    InSlice(out, o, PixelBytes(v), 2 * k + 1);
    PixelBytesAt(v, k);
    ChannelSmall(v, k);
    UpperWiden(Channel(v, k));
  }

  lemma OpaqueBytes(out: seq<Byte8>, o: nat, v: bv32)
    requires o + 8 <= |out| && out[o..o + 8] == PixelBytes(v)
    ensures out[o + 6] == 0xff && out[o + 7] == 0xff
  {
    InSlice(out, o, PixelBytes(v), 6);
    InSlice(out, o, PixelBytes(v), 7);
  }

  /** The output bytes hold the colours of the input bytes, red first, then green and blue, and
      full opacity. */
  predicate Colours(out: seq<Byte8>, o: nat, b0: Byte8, b1: Byte8, b2: Byte8, b3: Byte8) {
    && o + 8 <= |out|
    && Upper(out[o], out[o + 1]) == Red(b2, b3)
    && Upper(out[o + 2], out[o + 3]) == Green(b1, b2)
    && Upper(out[o + 4], out[o + 5]) == Blue(b0, b1)
    && out[o + 6] == 0xff && out[o + 7] == 0xff
  }

  lemma PixelColours(out: seq<Byte8>, o: nat, v: bv32, b0: Byte8, b1: Byte8, b2: Byte8, b3: Byte8)
    requires o + 8 <= |out| && out[o..o + 8] == PixelBytes(v)
    requires Channels(v, b0, b1, b2, b3)
    ensures Colours(out, o, b0, b1, b2, b3)
  {
    PairUpper(out, o, v, 0);
    PairUpper(out, o, v, 1);
    PairUpper(out, o, v, 2);
    OpaqueBytes(out, o, v);
  }

  /** Pixel `x` of row `y`: its four bytes of the input become eight of the output, each colour
      with its ten bits on top. */
  lemma ExpandedBytes(out: seq<Byte8>, pixels: seq<Byte8>, width: nat, stride: nat, x: nat, y: nat)
    requires Widened(out, pixels, width, stride, x, y)
    ensures var i: nat, o: nat := y * stride + x * 4, (y * width + x) * 8;
            && i + 4 <= |pixels|
            && Colours(out, o, pixels[i], pixels[i + 1], pixels[i + 2], pixels[i + 3])
  {
    var i := From(stride, x, y);
    JoinChannels(pixels[i], pixels[i + 1], pixels[i + 2], pixels[i + 3]);
    PixelColours(out, To(width, x, y), Word(pixels, i), pixels[i], pixels[i + 1], pixels[i + 2], pixels[i + 3]);
  }

  // ---- format codes ------------------------------------------------------

  /** A format code spelt in four characters, the first in the low byte. */
  function FourCc(a: char, b: char, c: char, d: char): int {
    a as int + 0x100 * (b as int) + 0x1_0000 * (c as int) + 0x100_0000 * (d as int)
  }

  /** A copy is ten-bit iff its code spells XR30 or AR30 and half-float iff it spells AB4H; all
      others are 8-bit; and its rows hold eight bytes a pixel if half-float and four if not. */
  lemma CopiedFormat(b: Shm, pool: Option<seq<Byte8>>, room: nat)
    requires BufferToPixels(b, pool, room).Copied?
    ensures var p, half := BufferToPixels(b, pool, room).buf, b.format == FourCc('A', 'B', '4', 'H');
            && (p.format.Rgb2101010? <==> b.format == FourCc('X', 'R', '3', '0') || b.format == FourCc('A', 'R', '3', '0'))
            && (p.format.Rgba16F? <==> half)
            && p.stride >= (if half then 8 else 4) * p.width
            && p.width == b.width && p.height == b.height && p.stride == b.stride
  {
    CopyExact(b, pool, room);
  }
}
