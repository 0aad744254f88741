/** Where a popup goes: the positioner's origin and its flip on each axis, and the flip and
    slide that keep it on the screen. */
module Placement {
  import opened Prelude

  // ---- the positioner ----------------------------------------------------

  datatype Positioner = Positioner(
    size: (I32, I32), anchorX: I32, anchorY: I32, anchorW: I32, anchorH: I32, offset: (I32, I32),
    anchor: U32, gravity: U32)

  /** Edges and corners: 1 top, 2 bottom, 3 left, 4 right, 5 top left, 6 bottom left,
      7 top right, 8 bottom right; others name no edge. */
  datatype Side = Low | High | Neither

  function SideX(v: U32): Side {
    if v == 3 || v == 5 || v == 6 then Low else if v == 4 || v == 7 || v == 8 then High else Neither
  }

  function SideY(v: U32): Side {
    if v == 1 || v == 5 || v == 7 then Low else if v == 2 || v == 6 || v == 8 then High else Neither
  }

  function Opposite(side: Side): Side {
    match side case Low => High case High => Low case Neither => Neither
  }

  function AnchorPoint(start: I32, extent: I32, anchor: Side): I32 {
    match anchor
    case Low => start
    case High => WrapI32(start + extent)
    case Neither => WrapI32(start + TruncDiv(extent, 2))
  }

  function FromAnchor(at: I32, size: I32, gravity: Side): I32 {
    match gravity
    case High => at
    case Low => WrapI32(at - size)
    case Neither => WrapI32(at - TruncDiv(size, 2))
  }

  /** One axis: the anchor point on the rectangle, the popup's start by its gravity, and the
      offset, in 32-bit arithmetic that wraps. */
  function Axis(start: I32, extent: I32, size: I32, offset: I32, anchor: Side, gravity: Side): I32 {
    WrapI32(FromAnchor(AnchorPoint(start, extent, anchor), size, gravity) + offset)
  }

  function Turned(side: Side, flip: bool): Side { if flip then Opposite(side) else side }

  function OriginX(p: Positioner, flip: bool): I32 {
    Axis(p.anchorX, p.anchorW, p.size.0, p.offset.0, Turned(SideX(p.anchor), flip), Turned(SideX(p.gravity), flip))
  }

  function OriginY(p: Positioner, flip: bool): I32 {
    Axis(p.anchorY, p.anchorH, p.size.1, p.offset.1, Turned(SideY(p.anchor), flip), Turned(SideY(p.gravity), flip))
  }

  /** What is lost when half of an extent is taken and doubled: 0, or 1 with its sign. */
  function Odd(extent: int): int { extent - 2 * TruncDiv(extent, 2) }

  function Reach(extent: int, anchor: Side): int {
    match anchor case Low => 0 case High => extent case Neither => TruncDiv(extent, 2)
  }

  function Back(size: int, gravity: Side): int {
    match gravity case High => 0 case Low => size case Neither => TruncDiv(size, 2)
  }

  /** The same axis without a bound on the numbers. */
  function Exact(start: int, extent: int, size: int, offset: int, anchor: Side, gravity: Side): int {
    start + Reach(extent, anchor) - Back(size, gravity) + offset
  }

  lemma AxisExact(start: I32, extent: I32, size: I32, offset: I32, anchor: Side, gravity: Side)
    ensures Axis(start, extent, size, offset, anchor, gravity) == WrapI32(Exact(start, extent, size, offset, anchor, gravity))
  {
    var at := AnchorPoint(start, extent, anchor);
    AnchorExact(start, extent, anchor);
    FromExact(at, size, gravity);
    WrapI32Add(start + Reach(extent, anchor), -Back(size, gravity));
    WrapI32Add(start + Reach(extent, anchor) - Back(size, gravity), offset);
  }

  lemma AnchorExact(start: I32, extent: I32, anchor: Side)
    ensures AnchorPoint(start, extent, anchor) == WrapI32(start + Reach(extent, anchor))
  {
    WrapI32Id(start);
  }

  lemma FromExact(at: I32, size: I32, gravity: Side)
    ensures FromAnchor(at, size, gravity) == WrapI32(at - Back(size, gravity))
  {
    WrapI32Id(at);
  }

  /** How far the flipped popup is from the mirror image about the anchor's centre. */
  function Defect(extent: int, size: int, anchor: Side, gravity: Side): int {
    (if gravity == Neither then Odd(size) else 0) - (if anchor == Neither then Odd(extent) else 0)
  }

  lemma ExactMirror(start: int, extent: int, size: int, offset: int, anchor: Side, gravity: Side)
    ensures (Exact(start, extent, size, offset, anchor, gravity) - offset)
            + (Exact(start, extent, size, offset, Opposite(anchor), Opposite(gravity)) - offset) + size
            == 2 * start + extent + Defect(extent, size, anchor, gravity)
  {
  }

  /** Flipping mirrors the popup about the centre of the anchor rectangle, before the offset:
      the starts of the two and the size add up to twice the centre, up to the defect. For
      numbers that do not overflow this is equality, and modulo 2^32 it always is. */
  lemma FlipMirrors(start: I32, extent: I32, size: I32, offset: I32, anchor: Side, gravity: Side)
    ensures var plain := Axis(start, extent, size, offset, anchor, gravity);
            var flipped := Axis(start, extent, size, offset, Opposite(anchor), Opposite(gravity));
            WrapI32(plain + flipped + size - 2 * offset) == WrapI32(2 * start + extent + Defect(extent, size, anchor, gravity))
  {
    AxisExact(start, extent, size, offset, anchor, gravity);
    AxisExact(start, extent, size, offset, Opposite(anchor), Opposite(gravity));
    ExactMirror(start, extent, size, offset, anchor, gravity);
    var a := Exact(start, extent, size, offset, anchor, gravity);
    var b := Exact(start, extent, size, offset, Opposite(anchor), Opposite(gravity));
    WrapI32Add(a, WrapI32(b) + size - 2 * offset);
    WrapI32Add(b, a + size - 2 * offset);
  }

  /** With sizes that are not negative the flip is within one unit of the mirror image. It is
      the mirror image iff the two halvings lose the same; so for all sizes at once iff
      anchor and gravity both name an edge on the axis. */
  lemma DefectSmall(extent: nat, size: nat, anchor: Side, gravity: Side)
    ensures -1 <= Defect(extent, size, anchor, gravity) <= 1
    ensures Defect(extent, size, anchor, gravity) == 0 <==>
            (anchor == Neither && extent % 2 == 1 <==> gravity == Neither && size % 2 == 1)
  {
  }

  /** Two odd sizes that show a side left unnamed. */
  lemma UnnamedDefect(anchor: Side, gravity: Side)
    ensures Defect(1, 0, anchor, gravity) == (if anchor == Neither then -1 else 0)
    ensures Defect(0, 1, anchor, gravity) == (if gravity == Neither then 1 else 0)
  {
  }

  ghost predicate NeverOff(anchor: Side, gravity: Side) {
    forall extent: nat, size: nat :: Defect(extent, size, anchor, gravity) == 0
  }

  lemma AlwaysMirror(anchor: Side, gravity: Side)
    ensures NeverOff(anchor, gravity) <==> anchor != Neither && gravity != Neither
  {
    UnnamedDefect(anchor, gravity);
    if NeverOff(anchor, gravity) {
      assert Defect(1, 0, anchor, gravity) == 0 && Defect(0, 1, anchor, gravity) == 0;
    }
  }

  // ---- the screen --------------------------------------------------------

  predicate OffScreen(p: real, size: real, min: real, max: real) { p < min || p + size > max }

  predicate Flips(pos: real, flipped: real, size: real, min: real, max: real, flip: bool) {
    flip && OffScreen(pos, size, min, max) && !OffScreen(flipped, size, min, max)
  }

  /** One axis of the constraint adjustment: unchanged if it fits, the flip if allowed,
      needed and fitting, the near edge if no position fits, and otherwise the nearest
      position that does. */
  function ConstrainAxis(pos: real, flipped: real, size: real, min: real, max: real, flip: bool): (r: real)
    ensures !OffScreen(pos, size, min, max) ==> r == pos
    ensures Flips(pos, flipped, size, min, max, flip) ==> r == flipped
    ensures size > max - min ==> r == min
    ensures !OffScreen(r, size, min, max) <==> size <= max - min
    ensures size <= max - min && !Flips(pos, flipped, size, min, max, flip) ==>
              forall q :: !OffScreen(q, size, min, max) ==> Distance(r, pos) <= Distance(q, pos)
  {
    var chosen := if flip && OffScreen(pos, size, min, max) && !OffScreen(flipped, size, min, max) then flipped else pos;
    var far := if chosen + size > max then max - size else chosen;
    if far < min then min else far
  }

  function Distance(a: real, b: real): real { if a < b then b - a else a - b }

  /** Constraining a constrained position changes nothing, whatever flip is on offer. */
  lemma ConstrainIdempotent(pos: real, flipped: real, size: real, min: real, max: real, flip: bool, again: real, flip': bool)
    ensures var r := ConstrainAxis(pos, flipped, size, min, max, flip);
            ConstrainAxis(r, again, size, min, max, flip') == r
  {
  }

  // ---- placing a popup ---------------------------------------------------

  /** A popup without a size is 200 by 200. */
  function Resolved(p: Positioner): Positioner { if p.size == (0, 0) then p.(size := (200, 200)) else p }

  /** An origin moved by the parent's content offset and back by the popup's own. */
  function Shift(origin: I32, parent: I32, own: I32): I32 { WrapI32(WrapI32(parent + origin) - own) }

  lemma ShiftWraps(e: int, parent: I32, own: I32)
    ensures Shift(WrapI32(e), parent, own) == WrapI32(e + parent - own)
  {
    WrapI32Add(e, parent);
    var back: int := own;
    WrapI32Add(e + parent, -back);
  }

  function ExactX(p: Positioner, flip: bool): int {
    Exact(p.anchorX, p.anchorW, p.size.0, p.offset.0, Turned(SideX(p.anchor), flip), Turned(SideX(p.gravity), flip))
  }

  function ExactY(p: Positioner, flip: bool): int {
    Exact(p.anchorY, p.anchorH, p.size.1, p.offset.1, Turned(SideY(p.anchor), flip), Turned(SideY(p.gravity), flip))
  }

  function DefectX(p: Positioner): int { Defect(p.anchorW, p.size.0, SideX(p.anchor), SideX(p.gravity)) }

  function DefectY(p: Positioner): int { Defect(p.anchorH, p.size.1, SideY(p.anchor), SideY(p.gravity)) }

  /** A positioner's plain and flipped origins are mirror images about the centre of its
      anchor rectangle, for all fields, modulo 2^32 and up to the defect. */
  lemma OriginXMirrors(p: Positioner)
    ensures WrapI32(OriginX(p, false) + OriginX(p, true) + p.size.0 - 2 * p.offset.0)
            == WrapI32(2 * p.anchorX + p.anchorW + DefectX(p))
  {
    FlipMirrors(p.anchorX, p.anchorW, p.size.0, p.offset.0, SideX(p.anchor), SideX(p.gravity));
  }

  lemma OriginYMirrors(p: Positioner)
    ensures WrapI32(OriginY(p, false) + OriginY(p, true) + p.size.1 - 2 * p.offset.1)
            == WrapI32(2 * p.anchorY + p.anchorH + DefectY(p))
  {
    FlipMirrors(p.anchorY, p.anchorH, p.size.1, p.offset.1, SideY(p.anchor), SideY(p.gravity));
  }

  datatype Frame = Frame(x: real, y: real, w: real, h: real)

  const FLIP_X: U32 := 4
  const FLIP_Y: U32 := 8

  /** A physical extent in points, at least 1. */
  function Points(extent: I32, scale: I32): (n: int)
    requires scale > 0
    ensures n >= 1
  {
    Max(TruncDiv(extent, scale), 1)
  }

  /** Screen coordinates grow upwards: the popup hangs below the parent's content top. A
      popup without a parent starts at a fixed point; without a screen it stays there. */
  function Place(content: Option<Frame>, screen: Option<Frame>, x: int, y: int, xFlip: int, yFlip: int, constraint: U32,
                 lw: int, lh: int): (real, real)
  {
    var origin := match content
      case None => (200.0, 200.0)
      case Some(f) => (f.x + x as real, f.y + f.h - y as real - lh as real);
    var flipped := match content
      case None => (200.0, 200.0)
      case Some(f) => (f.x + xFlip as real, f.y + f.h - yFlip as real - lh as real);
    match screen
    case None => origin
    case Some(vf) =>
      (ConstrainAxis(origin.0, flipped.0, lw as real, vf.x, vf.x + vf.w, HasBit(constraint, FLIP_X)),
       ConstrainAxis(origin.1, flipped.1, lh as real, vf.y, vf.y + vf.h, HasBit(constraint, FLIP_Y)))
  }

  /** What a popup's window depends on besides its positioner: the content offsets of the
      parent's and its own buffer, its buffer's extent, and the output scale. */
  datatype Shown = Shown(parent: (I32, I32), own: (I32, I32), width: I32, height: I32, scale: I32)

  /** From a positioner to the window's place. */
  function PlacePopup(pos: Positioner, s: Shown, content: Option<Frame>, screen: Option<Frame>, constraint: U32): (real, real)
    requires s.scale > 0
  {
    var p := Resolved(pos);
    Place(content, screen,
          Shift(OriginX(p, false), s.parent.0, s.own.0), Shift(OriginY(p, false), s.parent.1, s.own.1),
          Shift(OriginX(p, true), s.parent.0, s.own.0), Shift(OriginY(p, true), s.parent.1, s.own.1),
          constraint, Points(s.width, s.scale), Points(s.height, s.scale))
  }

  /** On a screen, a popup that is no larger than the visible frame lies inside it, whatever
      the client asked for. */
  lemma PlacedInside(pos: Positioner, s: Shown, content: Option<Frame>, vf: Frame, constraint: U32)
    requires s.scale > 0
    ensures var lw, lh := Points(s.width, s.scale), Points(s.height, s.scale);
            var at := PlacePopup(pos, s, content, Some(vf), constraint);
            && (lw as real <= vf.w ==> vf.x <= at.0 && at.0 + lw as real <= vf.x + vf.w)
            && (lh as real <= vf.h ==> vf.y <= at.1 && at.1 + lh as real <= vf.y + vf.h)
  {
  }

  predicate InI32(x: int) { -0x8000_0000 <= x < 0x8000_0000 }

  /** Where an axis is asked to start and would start flipped, the numbers not overflowing. */
  lemma ShiftedExact(e: int, parent: I32, own: I32)
    requires InI32(e + parent - own)
    ensures Shift(WrapI32(e), parent, own) == e + parent - own
  {
    ShiftWraps(e, parent, own);
    WrapI32Id(e + parent - own);
  }

  /** The horizontal flip on the screen: a popup whose request falls off while its flip fits
      starts at the flip, and the two lie symmetric about the centre of the anchor, moved by
      the offset and the buffers' content offsets, up to the defect and to the difference
      between the window's width and the positioner's. */
  lemma FlippedAcross(pos: Positioner, s: Shown, f: Frame, vf: Frame, constraint: U32)
    requires s.scale > 0 && HasBit(constraint, FLIP_X)
    requires var g := s.parent.0 - s.own.0; InI32(ExactX(Resolved(pos), false) + g) && InI32(ExactX(Resolved(pos), true) + g)
    ensures var p, g, lw := Resolved(pos), s.parent.0 - s.own.0, Points(s.width, s.scale);
            var asked, flipped := f.x + (ExactX(p, false) + g) as real, f.x + (ExactX(p, true) + g) as real;
            OffScreen(asked, lw as real, vf.x, vf.x + vf.w) && !OffScreen(flipped, lw as real, vf.x, vf.x + vf.w) ==>
              var at := PlacePopup(pos, s, Some(f), Some(vf), constraint).0;
              && at == flipped
              && asked + at + lw as real
                 == 2.0 * (f.x + (p.offset.0 + g) as real) + (2 * p.anchorX + p.anchorW + DefectX(p) + lw - p.size.0) as real
  {
    var p := Resolved(pos);
    AxisExact(p.anchorX, p.anchorW, p.size.0, p.offset.0, SideX(p.anchor), SideX(p.gravity));
    AxisExact(p.anchorX, p.anchorW, p.size.0, p.offset.0, Opposite(SideX(p.anchor)), Opposite(SideX(p.gravity)));
    ShiftedExact(ExactX(p, false), s.parent.0, s.own.0);
    ShiftedExact(ExactX(p, true), s.parent.0, s.own.0);
    ExactMirror(p.anchorX, p.anchorW, p.size.0, p.offset.0, SideX(p.anchor), SideX(p.gravity));
  }

  /** The vertical flip, where the screen's axis is reversed and a start is a lower edge. */
  lemma FlippedBelowAbove(pos: Positioner, s: Shown, f: Frame, vf: Frame, constraint: U32)
    requires s.scale > 0 && HasBit(constraint, FLIP_Y)
    requires var g := s.parent.1 - s.own.1; InI32(ExactY(Resolved(pos), false) + g) && InI32(ExactY(Resolved(pos), true) + g)
    ensures var p, g, lh := Resolved(pos), s.parent.1 - s.own.1, Points(s.height, s.scale);
            var top := f.y + f.h;
            var asked, flipped := top - (ExactY(p, false) + g) as real - lh as real, top - (ExactY(p, true) + g) as real - lh as real;
            OffScreen(asked, lh as real, vf.y, vf.y + vf.h) && !OffScreen(flipped, lh as real, vf.y, vf.y + vf.h) ==>
              var at := PlacePopup(pos, s, Some(f), Some(vf), constraint).1;
              && at == flipped
              && asked + at + lh as real
                 == 2.0 * (top - (p.offset.1 + g) as real) - (2 * p.anchorY + p.anchorH + DefectY(p) + lh - p.size.1) as real
  {
    var p := Resolved(pos);
    AxisExact(p.anchorY, p.anchorH, p.size.1, p.offset.1, SideY(p.anchor), SideY(p.gravity));
    AxisExact(p.anchorY, p.anchorH, p.size.1, p.offset.1, Opposite(SideY(p.anchor)), Opposite(SideY(p.gravity)));
    ShiftedExact(ExactY(p, false), s.parent.1, s.own.1);
    ShiftedExact(ExactY(p, true), s.parent.1, s.own.1);
    ExactMirror(p.anchorY, p.anchorH, p.size.1, p.offset.1, SideY(p.anchor), SideY(p.gravity));
  }

  // ---- what the codes ask for --------------------------------------------

  /** How far along an extent a code points: not at all for the near codes, all of it for the
      far ones, and half for any other. */
  function Along(code: U32, near: set<U32>, far: set<U32>, extent: int): int {
    if code in near then 0 else if code in far then extent else TruncDiv(extent, 2)
  }

  const LEFT: set<U32> := {3, 5, 6}
  const RIGHT: set<U32> := {4, 7, 8}
  const TOP: set<U32> := {1, 5, 7}
  const BOTTOM: set<U32> := {2, 6, 8}

  /** One axis as asked: the anchor's code picks the point on the rectangle; a popup that
      extends to the far side starts there, one that extends to the near side ends there, and
      any other lies half before it. A flip exchanges near and far. */
  function Asked(start: int, extent: int, size: int, offset: int, anchor: U32, gravity: U32, near: set<U32>, far: set<U32>): int {
    start + Along(anchor, near, far, extent) - Along(gravity, far, near, size) + offset
  }

  function AskedX(p: Positioner, flip: bool): int {
    if flip then Asked(p.anchorX, p.anchorW, p.size.0, p.offset.0, p.anchor, p.gravity, RIGHT, LEFT)
    else Asked(p.anchorX, p.anchorW, p.size.0, p.offset.0, p.anchor, p.gravity, LEFT, RIGHT)
  }

  function AskedY(p: Positioner, flip: bool): int {
    if flip then Asked(p.anchorY, p.anchorH, p.size.1, p.offset.1, p.anchor, p.gravity, BOTTOM, TOP)
    else Asked(p.anchorY, p.anchorH, p.size.1, p.offset.1, p.anchor, p.gravity, TOP, BOTTOM)
  }

  /** The positioner's origins, plain and flipped, are what the codes ask for modulo 2^32. */
  lemma OriginXAsked(p: Positioner, flip: bool)
    ensures OriginX(p, flip) == WrapI32(AskedX(p, flip))
  {
    AxisExact(p.anchorX, p.anchorW, p.size.0, p.offset.0, Turned(SideX(p.anchor), flip), Turned(SideX(p.gravity), flip));
  }

  lemma OriginYAsked(p: Positioner, flip: bool)
    ensures OriginY(p, flip) == WrapI32(AskedY(p, flip))
  {
    AxisExact(p.anchorY, p.anchorH, p.size.1, p.offset.1, Turned(SideY(p.anchor), flip), Turned(SideY(p.gravity), flip));
  }

  /** An extent in points is the whole points that fit, at least one. */
  lemma PointsMean(extent: I32, scale: I32)
    requires scale > 0
    ensures var n := Points(extent, scale);
            if extent < scale then n == 1 else n * scale <= extent < (n + 1) * scale
  {
    var e: int := extent;
    if e < 0 {
      assert TruncDiv(e, scale) <= 0;
    } else {
      assert e == e / scale * scale + e % scale;
      assert (e / scale + 1) * scale == e / scale * scale + scale;
    }
  }

  /** The positioner with the size the popup gets: 200 by 200 if it gives none. */
  predicate Sized(pos: Positioner, p: Positioner) {
    && p == pos.(size := p.size)
    && p.size == if pos.size.0 == 0 && pos.size.1 == 0 then (200, 200) else pos.size
  }

  /** The lower left corner of a popup that starts at a point of its parent's content, y counted
      down from the content's top; without a parent it is a fixed point. */
  function OnScreen(content: Option<Frame>, x: int, y: int, lh: int): (real, real) {
    match content
    case None => (200.0, 200.0)
    case Some(f) => (f.x + x as real, f.y + f.h - y as real - lh as real)
  }

  /** The codes' numbers moved by the buffers' content offsets. */
  function MovedX(p: Positioner, s: Shown, flip: bool): int { WrapI32(AskedX(p, flip) + s.parent.0 - s.own.0) }
  function MovedY(p: Positioner, s: Shown, flip: bool): int { WrapI32(AskedY(p, flip) + s.parent.1 - s.own.1) }

  /** The place asked for, or its flip. */
  function AskedAt(p: Positioner, s: Shown, content: Option<Frame>, lh: int, flip: bool): (real, real) {
    OnScreen(content, MovedX(p, s, flip), MovedY(p, s, flip), lh)
  }

  predicate Between(at: real, size: int, min: real, extent: real) { min <= at && at + size as real <= min + extent }

  /** One axis of the screen: what fits where it is asked for is there; failing that its flip,
      if allowed, where that fits; failing that it is moved to the edge it is past, or to the
      near one when it is larger than the screen. */
  predicate Settles(at: real, asked: real, flipped: real, size: int, min: real, extent: real, allowed: bool) {
    if Between(asked, size, min, extent) then at == asked
    else if allowed && Between(flipped, size, min, extent) then at == flipped
    else at == if asked < min || size as real > extent then min else min + extent - size as real
  }

  /** Bit 2 of the adjustment allows the horizontal flip and bit 3 the vertical one. */
  predicate SettlesOn(at: (real, real), asked: (real, real), flipped: (real, real), lw: int, lh: int, vf: Frame, constraint: U32) {
    && Settles(at.0, asked.0, flipped.0, lw, vf.x, vf.w, constraint / 4 % 2 == 1)
    && Settles(at.1, asked.1, flipped.1, lh, vf.y, vf.h, constraint / 8 % 2 == 1)
  }

  predicate AsAsked(at: (real, real), asked: (real, real), flipped: (real, real), screen: Option<Frame>, lw: int, lh: int, constraint: U32) {
    match screen
    case None => at == asked
    case Some(vf) => SettlesOn(at, asked, flipped, lw, lh, vf, constraint)
  }

  /** Where every popup is: at the place asked for without a screen, and else on each axis there,
      at its flip or at an edge. */
  lemma PlacedAsAsked(pos: Positioner, p: Positioner, s: Shown, content: Option<Frame>, screen: Option<Frame>, constraint: U32)
    requires s.scale > 0 && Sized(pos, p)
    ensures var lw, lh := Points(s.width, s.scale), Points(s.height, s.scale);
            AsAsked(PlacePopup(pos, s, content, screen, constraint),
                    AskedAt(p, s, content, lh, false), AskedAt(p, s, content, lh, true), screen, lw, lh, constraint)
  {
    PlacedByCodes(pos, p, s, content, screen, constraint);
    PlaceSettles(content, screen, MovedX(p, s, false), MovedY(p, s, false), MovedX(p, s, true), MovedY(p, s, true),
                 constraint, Points(s.width, s.scale), Points(s.height, s.scale));
  }

  lemma PlacedByCodes(pos: Positioner, p: Positioner, s: Shown, content: Option<Frame>, screen: Option<Frame>, constraint: U32)
    requires s.scale > 0 && Sized(pos, p)
    ensures PlacePopup(pos, s, content, screen, constraint) ==
            Place(content, screen, MovedX(p, s, false), MovedY(p, s, false), MovedX(p, s, true), MovedY(p, s, true),
                  constraint, Points(s.width, s.scale), Points(s.height, s.scale))
  {
    SizedResolved(pos, p);
    ShiftedX(p, s, false);
    ShiftedX(p, s, true);
    ShiftedY(p, s, false);
    ShiftedY(p, s, true);
  }

  lemma SizedResolved(pos: Positioner, p: Positioner)
    requires Sized(pos, p)
    ensures p == Resolved(pos)
  {
  }

  lemma ShiftedX(p: Positioner, s: Shown, flip: bool)
    ensures Shift(OriginX(p, flip), s.parent.0, s.own.0) == MovedX(p, s, flip)
  {
    OriginXAsked(p, flip);
    if flip {
      ShiftWraps(AskedX(p, true), s.parent.0, s.own.0);
    } else {
      ShiftWraps(AskedX(p, false), s.parent.0, s.own.0);
    }
  }

  lemma ShiftedY(p: Positioner, s: Shown, flip: bool)
    ensures Shift(OriginY(p, flip), s.parent.1, s.own.1) == MovedY(p, s, flip)
  {
    OriginYAsked(p, flip);
    if flip {
      ShiftWraps(AskedY(p, true), s.parent.1, s.own.1);
    } else {
      ShiftWraps(AskedY(p, false), s.parent.1, s.own.1);
    }
  }

  lemma AxisSettles(pos: real, flipped: real, size: int, min: real, extent: real, flip: bool)
    ensures Settles(ConstrainAxis(pos, flipped, size as real, min, min + extent, flip), pos, flipped, size, min, extent, flip)
  {
  }

  lemma PlaceSettles(content: Option<Frame>, screen: Option<Frame>, x: int, y: int, xFlip: int, yFlip: int, constraint: U32,
                     lw: int, lh: int)
    ensures AsAsked(Place(content, screen, x, y, xFlip, yFlip, constraint, lw, lh),
                    OnScreen(content, x, y, lh), OnScreen(content, xFlip, yFlip, lh), screen, lw, lh, constraint)
  {
    if screen.Some? {
      var vf := screen.value;
      var asked, flipped := OnScreen(content, x, y, lh), OnScreen(content, xFlip, yFlip, lh);
      AxisSettles(asked.0, flipped.0, lw, vf.x, vf.w, HasBit(constraint, FLIP_X));
      AxisSettles(asked.1, flipped.1, lh, vf.y, vf.h, HasBit(constraint, FLIP_Y));
    }
  }
}
