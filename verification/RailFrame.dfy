/** Surface frames and the crop that removes the alignment padding. */
module RailFrame {
  import opened Prelude

  /** Four-byte pixels in rows of `stride` bytes. `serial` says which surface update the
      pixels came from; the bridge copies it along with the pixels and never reads it. */
  datatype FrameData = FrameData(serial: nat, width: U32, height: U32, stride: U32, data: seq<Byte>) {
    predicate Valid() {
      |data| == height * stride && 4 * width <= stride
    }
  }

  type Frame = f: FrameData | f.Valid() witness FrameData(0, 0, 0, 0, [])

  lemma RowFits(r: nat, rows: nat, stride: nat)
    requires r < rows
    ensures 0 <= r * stride && (r + 1) * stride == r * stride + stride <= rows * stride
  {
    assert (r + 1) * stride <= rows * stride by { MulLe(r + 1, rows, stride); }
  }

  lemma MulLe(a: nat, b: nat, c: nat)
    requires a <= b
    ensures a * c <= b * c
  {
  }

  /** The first `rows` rows of `data`, each cut to its first `keep` bytes. */
  function CropRows(data: seq<Byte>, stride: nat, keep: nat, rows: nat): (out: seq<Byte>)
    requires keep <= stride && rows * stride <= |data|
    ensures |out| == rows * keep
    decreases rows
  {
    if rows == 0 then []
    else
      RowFits(rows - 1, rows, stride);
      RowFits(rows - 1, rows, keep);
      CropRows(data, stride, keep, rows - 1) + data[(rows - 1) * stride..(rows - 1) * stride + keep]
  }

  /** Byte `k` of output row `r` is byte `k` of input row `r`. */
  lemma {:induction false} CropAt(data: seq<Byte>, stride: nat, keep: nat, rows: nat, r: nat, k: nat)
    requires keep <= stride && rows * stride <= |data|
    requires r < rows && k < keep
    ensures 0 <= r * keep + k < rows * keep && 0 <= r * stride + k < |data|
    ensures CropRows(data, stride, keep, rows)[r * keep + k] == data[r * stride + k]
  {
    RowFits(r, rows, keep);
    RowFits(r, rows, stride);
    RowFits(rows - 1, rows, stride);
    if r < rows - 1 {
      CropAt(data, stride, keep, rows - 1, r, k);
    }
  }

  /** The first `r` rows are in place. */
  ghost predicate Copied(buf: seq<Byte>, data: seq<Byte>, stride: nat, keep: nat, r: nat)
    requires keep <= stride && r * stride <= |data|
  {
    CropRows(data, stride, keep, r) <= buf
  }

  /** One more row. */
  lemma CopiedNext(was: seq<Byte>, now: seq<Byte>, data: seq<Byte>, stride: nat, keep: nat, r: nat, to: nat, from: nat)
    requires keep <= stride && to == r * keep && from == r * stride && (r + 1) * stride <= |data|
    requires from + stride == (r + 1) * stride
    requires Copied(was, data, stride, keep, r) && to <= |was|
    requires to + keep <= |now| && now[..to + keep] == was[..to] + data[from..from + keep]
    ensures Copied(now, data, stride, keep, r + 1)
  {
    assert |CropRows(data, stride, keep, r)| == to;
    assert CropRows(data, stride, keep, r + 1) == now[..to + keep];
  }

  method CropCopy(data: seq<Byte>, stride: nat, keep: nat, rows: nat) returns (buf: array<Byte>)
    requires keep <= stride && rows * stride <= |data|
    ensures fresh(buf)
    ensures buf[..] == CropRows(data, stride, keep, rows)
  {
    buf := new Byte[rows * keep];
    var r := 0;
    while r < rows
      invariant 0 <= r <= rows && r * stride <= |data|
      invariant Copied(buf[..], data, stride, keep, r)
    {
      RowFits(r, rows, stride);
      RowFits(r, rows, keep);
      var to, from := r * keep, r * stride;
      ghost var was := buf[..];
      CopyRow(buf, to, data, from, keep);
      CopiedNext(was, buf[..], data, stride, keep, r, to, from);
      r := r + 1;
    }
  }

  /** One row, behind those already there. */
  method CopyRow(buf: array<Byte>, to: nat, data: seq<Byte>, from: nat, keep: nat)
    requires to + keep <= buf.Length && from + keep <= |data|
    modifies buf
    ensures buf[..][..to + keep] == old(buf[..])[..to] + data[from..from + keep]
  {
    forall k | 0 <= k < keep {
      buf[to + k] := data[from + k];
    }
  }

  /** The frame cut to `cw` by `ch`, when that is a proper, non-empty part of it. */
  predicate Crops(f: Frame, cw: U32, ch: U32) {
    cw > 0 && ch > 0 && cw <= f.width && ch <= f.height && (cw != f.width || ch != f.height)
  }

  function Cropped(f: Frame, cw: U32, ch: U32): (c: Frame)
    ensures c.serial == f.serial
    ensures Crops(f, cw, ch) ==> c.width == cw && c.height == ch
    ensures !Crops(f, cw, ch) ==> c == f
  {
    if Crops(f, cw, ch) then
      MulLe(ch, f.height, f.stride);
      FrameData(f.serial, cw, ch, 4 * cw, CropRows(f.data, f.stride, 4 * cw, ch))
    else f
  }

  /** Every byte of every pixel that survives a crop is the original one. */
  lemma CroppedPixel(f: Frame, cw: U32, ch: U32, x: nat, y: nat, b: nat)
    ensures var c := Cropped(f, cw, ch);
            x < c.width && y < c.height && b < 4 ==>
            && 0 <= y * c.stride + 4 * x + b < |c.data|
            && 0 <= y * f.stride + 4 * x + b < |f.data|
            && c.data[y * c.stride + 4 * x + b] == f.data[y * f.stride + 4 * x + b]
  {
    if x < Cropped(f, cw, ch).width && y < Cropped(f, cw, ch).height && b < 4 {
      if Crops(f, cw, ch) {
        MulLe(ch, f.height, f.stride);
        CropAt(f.data, f.stride, 4 * cw, ch, y, 4 * x + b);
      } else {
        RowFits(y, f.height, f.stride);
      }
    }
  }
}
