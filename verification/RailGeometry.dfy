/** Window rectangles and the "covering child" test of the RAIL router. */
module RailGeometry {
  import opened Prelude

  /** How far a child may stick out of its owner on each side and still count as inside. */
  const CONTAIN_SLACK := 8

  datatype Rect = Rect(x: I32, y: I32, w: I32, h: I32) {

    function Area(): nat {
      Max(w, 0) * Max(h, 0)
    }

    /** `this` fills at least four fifths of `owner` and sits inside it up to the
        slack. Edge sums are 32-bit sums. */
    predicate Covers(owner: Rect) {
      && owner.Area() != 0
      && Area() != 0
      && 5 * Area() >= 4 * owner.Area()
      && x >= WrapI32(owner.x - CONTAIN_SLACK)
      && y >= WrapI32(owner.y - CONTAIN_SLACK)
      && WrapI32(x + w) <= WrapI32(owner.x + owner.w + CONTAIN_SLACK)
      && WrapI32(y + h) <= WrapI32(owner.y + owner.h + CONTAIN_SLACK)
    }

    /** No edge sum of `Covers` leaves the 32-bit range on account of this rectangle. */
    predicate Roomy() {
      && -0x7fff_0000 <= x <= 0x3fff_0000 && 0 < w <= 0x3fff_0000
      && -0x7fff_0000 <= y <= 0x3fff_0000 && 0 < h <= 0x3fff_0000
    }

    /** The pixel column/row ranges meet in at least one pixel. */
    predicate Overlaps(other: Rect) {
      && x < other.x + other.w && other.x < x + w
      && y < other.y + other.h && other.y < y + h
    }
  }

  /** On rectangles whose sums do not wrap, `Covers` is plain containment in the owner
      grown by the slack together with the area ratio. */
  lemma CoversMeaning(child: Rect, owner: Rect)
    requires child.Roomy() && owner.Roomy()
    ensures child.Covers(owner) <==>
            && 5 * (child.w * child.h) >= 4 * (owner.w * owner.h)
            && owner.x - 8 <= child.x && child.x + child.w <= owner.x + owner.w + 8
            && owner.y - 8 <= child.y && child.y + child.h <= owner.y + owner.h + 8
  {
    AreaPositive(child);
    AreaPositive(owner);
    EdgesExact(child, owner);
  }

  /** The 32-bit number that stands for `n`. */
  function Signed(n: int): int {
    if n < -0x8000_0000 then n + 0x1_0000_0000 else if n >= 0x8000_0000 then n - 0x1_0000_0000 else n
  }

  /** On all rectangles: an edge past the 32-bit range counts at the other end of it. */
  lemma CoversWrapped(child: Rect, owner: Rect)
    ensures child.Covers(owner) <==>
            && child.w > 0 && child.h > 0 && owner.w > 0 && owner.h > 0
            && 5 * (child.w * child.h) >= 4 * (owner.w * owner.h)
            && Signed(owner.x - 8) <= child.x && Signed(child.x + child.w) <= Signed(owner.x + owner.w + 8)
            && Signed(owner.y - 8) <= child.y && Signed(child.y + child.h) <= Signed(owner.y + owner.h + 8)
  {
    AreaMeans(child);
    AreaMeans(owner);
    if child.w > 0 && child.h > 0 && owner.w > 0 && owner.h > 0 {
      SignedWraps(owner.x - 8);
      SignedWraps(owner.y - 8);
      SignedWraps(child.x + child.w);
      SignedWraps(child.y + child.h);
      SignedWraps(owner.x + owner.w + 8);
      SignedWraps(owner.y + owner.h + 8);
    }
  }

  lemma AreaMeans(r: Rect)
    ensures r.Area() != 0 <==> r.w > 0 && r.h > 0
    ensures r.w > 0 && r.h > 0 ==> r.Area() == r.w * r.h
  {
  }

  lemma SignedWraps(n: int)
    requires -0x1_0000_0000 <= n <= 0x1_0000_0010
    ensures WrapI32(n) == Signed(n)
  {
  }

  lemma EdgesExact(child: Rect, owner: Rect)
    requires child.Roomy() && owner.Roomy()
    ensures WrapI32(owner.x - CONTAIN_SLACK) == owner.x - 8
    ensures WrapI32(owner.y - CONTAIN_SLACK) == owner.y - 8
    ensures WrapI32(child.x + child.w) == child.x + child.w
    ensures WrapI32(child.y + child.h) == child.y + child.h
    ensures WrapI32(owner.x + owner.w + CONTAIN_SLACK) == owner.x + owner.w + 8
    ensures WrapI32(owner.y + owner.h + CONTAIN_SLACK) == owner.y + owner.h + 8
  {
    WrapI32Id(owner.x - 8);
    WrapI32Id(owner.y - 8);
    WrapI32Id(child.x + child.w);
    WrapI32Id(child.y + child.h);
    WrapI32Id(owner.x + owner.w + 8);
    WrapI32Id(owner.y + owner.h + 8);
  }

  lemma AreaPositive(r: Rect)
    requires r.Roomy()
    ensures r.Area() == r.w * r.h > 0
  {
  }

  /** A strip at most half as long as the grown owner is too small to cover it. */
  lemma HalfStripTooSmall(ow: int, oh: int, cw: int, ch: int)
    requires ow >= 64 && oh >= 64
    requires 0 < cw && 2 * cw <= ow + 16
    requires 0 < ch <= oh + 16
    ensures 5 * (cw * ch) < 4 * (ow * oh)
  {
    // 4 (n + 16) <= 5 n for n >= 64, so 2 cw <= 5/4 ow and ch <= 5/4 oh
    assert 8 * cw <= 5 * ow && 4 * ch <= 5 * oh;
    assert (8 * cw) * (4 * ch) <= (5 * ow) * (4 * ch) by { MulMono(8 * cw, 5 * ow, 4 * ch); }
    assert (4 * ch) * (5 * ow) <= (5 * oh) * (5 * ow) by { MulMono(4 * ch, 5 * oh, 5 * ow); }
    assert 32 * (cw * ch) <= 25 * (ow * oh) by {
      assert (8 * cw) * (4 * ch) == 32 * (cw * ch);
      assert (5 * oh) * (5 * ow) == 25 * (ow * oh);
    }
    assert ow * oh > 0;
  }

  lemma MulMono(a: int, b: int, c: int)
    requires a <= b && 0 <= c
    ensures a * c <= b * c
  {
  }

  /** Half the grown owner, cut lengthwise or crosswise, is large enough to cover it. */
  predicate HalvesCover(ow: int, oh: int) {
    5 * ((ow + 16) / 2 * (oh + 16)) >= 4 * (ow * oh) || 5 * ((oh + 16) / 2 * (ow + 16)) >= 4 * (ow * oh)
  }

  /** Coordinates and sizes below 2^29. */
  predicate Desktop(r: Rect) {
    -0x2000_0000 < r.x < 0x2000_0000 && -0x2000_0000 < r.y < 0x2000_0000 && 0 < r.w < 0x2000_0000 && 0 < r.h < 0x2000_0000
  }

  /** The area of a child inside one half of the grown owner. */
  lemma HalfArea(cw: int, ch: int, half: int, full: int)
    requires 0 < cw <= half && 0 < ch <= full
    ensures cw * ch <= half * full
  {
    MulMono(cw, half, ch);
    MulMono(ch, full, half);
    assert cw * ch <= half * ch <= half * full;
  }

  /** Two spans side by side in the grown owner leave the shorter one within half of it. */
  lemma OneAxis(aAt: int, aw: int, ah: int, bAt: int, bw: int, bh: int, at: int, ow: int, oh: int)
    requires at - 8 <= aAt && aAt + aw <= at + ow + 8 && at - 8 <= bAt && bAt + bw <= at + ow + 8
    requires aAt + aw <= bAt || bAt + bw <= aAt
    requires 0 < aw && 0 < bw && 0 < ah <= oh + 16 && 0 < bh <= oh + 16
    requires 5 * (aw * ah) >= 4 * (ow * oh) && 5 * (bw * bh) >= 4 * (ow * oh)
    ensures 5 * ((ow + 16) / 2 * (oh + 16)) >= 4 * (ow * oh)
  {
    if aw <= bw { HalfArea(aw, ah, (ow + 16) / 2, oh + 16); } else { HalfArea(bw, bh, (ow + 16) / 2, oh + 16); }
  }

  lemma Commutes(a: int, b: int)
    ensures a * b == b * a
  {
  }

  /** The same on the other axis. */
  lemma OtherAxis(aAt: int, aw: int, ah: int, bAt: int, bw: int, bh: int, at: int, ow: int, oh: int)
    requires at - 8 <= aAt && aAt + ah <= at + oh + 8 && at - 8 <= bAt && bAt + bh <= at + oh + 8
    requires aAt + ah <= bAt || bAt + bh <= aAt
    requires 0 < ah && 0 < bh && 0 < aw <= ow + 16 && 0 < bw <= ow + 16
    requires 5 * (aw * ah) >= 4 * (ow * oh) && 5 * (bw * bh) >= 4 * (ow * oh)
    ensures 5 * ((oh + 16) / 2 * (ow + 16)) >= 4 * (ow * oh)
  {
    Commutes(aw, ah);
    Commutes(bw, bh);
    Commutes(ow, oh);
    OneAxis(aAt, ah, aw, bAt, bh, bw, at, oh, ow);
  }

  /** Two covering children that do not overlap leave one of them within half the owner. */
  lemma DisjointNeedsHalves(a: Rect, b: Rect, owner: Rect)
    requires a.Roomy() && b.Roomy() && owner.Roomy()
    ensures a.Covers(owner) && b.Covers(owner) && !a.Overlaps(b) ==> HalvesCover(owner.w, owner.h)
  {
    CoversMeaning(a, owner);
    CoversMeaning(b, owner);
    if !a.Covers(owner) || !b.Covers(owner) || a.Overlaps(b) {
    } else if a.x + a.w <= b.x || b.x + b.w <= a.x {
      OneAxis(a.x, a.w, a.h, b.x, b.w, b.h, owner.x, owner.w, owner.h);
    } else {
      OtherAxis(a.y, a.w, a.h, b.y, b.w, b.h, owner.y, owner.w, owner.h);
    }
  }

  /** A child lying in the grown owner with a large enough area. */
  lemma CoversBy(child: Rect, owner: Rect, area: int)
    requires child.Roomy() && Desktop(owner) && child.w * child.h == area && 5 * area >= 4 * (owner.w * owner.h)
    requires owner.x - 8 <= child.x && child.x + child.w <= owner.x + owner.w + 8
    requires owner.y - 8 <= child.y && child.y + child.h <= owner.y + owner.h + 8
    ensures child.Covers(owner)
  {
    CoversMeaning(child, owner);
  }

  /** The two halves themselves. */
  lemma HalvesAcross(owner: Rect, half: int, full: int) returns (a: Rect, b: Rect)
    requires Desktop(owner) && half == (owner.w + 16) / 2 && full == owner.h + 16
    requires 5 * (half * full) >= 4 * (owner.w * owner.h)
    ensures Disjoint(a, b, owner)
  {
    a := Rect(owner.x - 8, owner.y - 8, half, full);
    b := Rect(owner.x - 8 + half, owner.y - 8, half, full);
    CoversBy(a, owner, half * full);
    CoversBy(b, owner, half * full);
  }

  lemma HalvesDown(owner: Rect, half: int, full: int) returns (a: Rect, b: Rect)
    requires Desktop(owner) && half == (owner.h + 16) / 2 && full == owner.w + 16
    requires 5 * (half * full) >= 4 * (owner.w * owner.h)
    ensures Disjoint(a, b, owner)
  {
    a := Rect(owner.x - 8, owner.y - 8, full, half);
    b := Rect(owner.x - 8, owner.y - 8 + half, full, half);
    Commutes(full, half);
    CoversBy(a, owner, half * full);
    CoversBy(b, owner, half * full);
  }

  ghost predicate Disjoint(a: Rect, b: Rect, owner: Rect) {
    && a.Roomy() && b.Roomy()
    && a.Covers(owner) && b.Covers(owner)
    && !a.Overlaps(b)
  }

  /** An owner can have two covering children that do not overlap iff half of it, grown by
      the slack, is large enough to cover it. */
  lemma TwoChildrenIff(owner: Rect)
    requires Desktop(owner)
    ensures (exists a, b :: Disjoint(a, b, owner)) <==> HalvesCover(owner.w, owner.h)
  {
    if a, b :| Disjoint(a, b, owner) { DisjointNeedsHalves(a, b, owner); }
    if HalvesCover(owner.w, owner.h) {
      var a, b;
      if 5 * ((owner.w + 16) / 2 * (owner.h + 16)) >= 4 * (owner.w * owner.h) {
        a, b := HalvesAcross(owner, (owner.w + 16) / 2, owner.h + 16);
      } else {
        a, b := HalvesDown(owner, (owner.h + 16) / 2, owner.w + 16);
      }
    }
  }

  lemma LargeHalvesTooSmall(ow: int, oh: int)
    requires ow >= 64 && oh >= 64
    ensures !HalvesCover(ow, oh)
  {
    HalfStripTooSmall(ow, oh, (ow + 16) / 2, oh + 16);
    HalfStripTooSmall(oh, ow, (oh + 16) / 2, ow + 16);
  }

  /** So any two children that cover an owner of at least 64 by 64 overlap. */
  lemma CoveringChildrenOverlap(a: Rect, b: Rect, owner: Rect)
    requires a.Roomy() && b.Roomy() && owner.Roomy() && owner.w >= 64 && owner.h >= 64
    ensures a.Covers(owner) && b.Covers(owner) ==> a.Overlaps(b)
  {
    LargeHalvesTooSmall(owner.w, owner.h);
    DisjointNeedsHalves(a, b, owner);
  }
}
