/** The native side of the RAIL callbacks in numbers: what each callback posts, in points. */
module RailNative {
  import opened Prelude
  import opened RailFrame
  import opened RailCalls
  import opened RailClient
  import D = RailDisconnect

  /** A physical extent in points: whole points that fit, at least one. Extents of 2^31 and
      more are negative as signed numbers and count as one point. */
  predicate Spans(p: int, extent: U32, scale: Scale) {
    if extent < scale || extent >= 0x8000_0000 then p == 1 else p >= 1 && p * scale <= extent < (p + 1) * scale
  }

  /** A physical coordinate in points, cut toward 0. */
  predicate Lies(p: int, x: I32, scale: Scale) {
    if x >= 0 then p >= 0 && p * scale <= x < (p + 1) * scale else p <= 0 && (p - 1) * scale < x <= p * scale
  }

  lemma Quotient(n: int, scale: Scale)
    requires n >= 0
    ensures n / scale * scale <= n < (n / scale + 1) * scale
    ensures if n < scale then n / scale == 0 else n / scale >= 1
  {
    assert n == n / scale * scale + n % scale;
    assert (n / scale + 1) * scale == n / scale * scale + scale;
    if n / scale <= 0 { assert n / scale * scale <= 0; }
  }

  lemma PointsSpan(extent: U32, scale: Scale)
    ensures Spans(Points(extent, scale), extent, scale)
  {
    if extent < 0x8000_0000 {
      WrapI32Id(extent);
      Quotient(extent, scale);
    } else {
      NegativeExtent(extent, scale);
    }
  }

  lemma NegativeExtent(extent: U32, scale: Scale)
    requires extent >= 0x8000_0000
    ensures Points(extent, scale) == 1
  {
    var n: int := 0x1_0000_0000 - extent;
    assert WrapI32(extent) == -n;
    Quotient(n, scale);
  }

  lemma TruncLies(x: I32, scale: Scale)
    ensures Lies(TruncDiv(x, scale), x, scale)
  {
    var z: int := x;
    var n := if z >= 0 then z else -z;
    Quotient(n, scale);
    if x < 0 { Negated(n / scale, scale); }
  }

  lemma Negated(q: int, scale: Scale)
    ensures -q * scale == -(q * scale) && (-q - 1) * scale == -((q + 1) * scale)
  {
  }

  // ---- what a callback posts ---------------------------------------------

  /** The window is created in points and put in its place. */
  predicate Spawns(more: seq<Cmd>, id: U32, x: I32, y: I32, w: U32, h: U32, title: seq<Byte>, scale: Scale) {
    && |more| == 2
    && more[0].Create? && more[0].id == id && more[0].title == title
    && Spans(more[0].width, w, scale) && Spans(more[0].height, h, scale)
    && Puts(more[1], id, x, y, scale)
  }

  predicate Puts(cmd: Cmd, id: U32, x: I32, y: I32, scale: Scale) {
    cmd.Move? && cmd.id == id && Lies(cmd.x, x, scale) && Lies(cmd.y, y, scale)
  }

  /** The size the window was last given, if any. */
  predicate PresentsAt(cmd: Cmd, id: U32, frame: Frame, sized: Option<(U32, U32)>, scale: Scale) {
    var (w, h) := if sized.Some? then sized.value else (frame.width, frame.height);
    cmd.Present? && cmd.id == id && cmd.frame == frame && Spans(cmd.dstW, w, scale) && Spans(cmd.dstH, h, scale)
  }

  /** What a callback posts, `live` saying whether the window has a native one and `sized` what
      size it was last given. */
  predicate Posts(more: seq<Cmd>, call: Call, live: bool, sized: Option<(U32, U32)>, scale: Scale) {
    match call
    case WindowCreate(id, x, y, w, h, title) =>
      if w == 0 || h == 0 then more == [] else Spawns(more, id, x, y, w, h, title, scale)
    case WindowUpdate(id, x, y, w, h) =>
      if live then |more| == 1 && Puts(more[0], id, x, y, scale)
      else if w == 0 || h == 0 then more == [] else Spawns(more, id, x, y, w, h, [], scale)
    case WindowTitle(id, title) => more == [Title(id, title)]
    case WindowDelete(id) => more == [Destroy(id)]
    case WindowSurface(id, frame) =>
      if frame.width == 0 || frame.height == 0 then more == []
      else |more| == 1 && PresentsAt(more[0], id, frame, sized, scale)
  }

  /** The size of the window's last create or update with one, unless it was deleted since. */
  function GivenSize(inputs: seq<Input>, id: U32): Option<(U32, U32)> {
    if |inputs| == 0 then None
    else
      var before := GivenSize(inputs[..|inputs| - 1], id);
      match inputs[|inputs| - 1]
      case Called(WindowCreate(i, _, _, w, h, _)) => if i == id && w > 0 && h > 0 then Some((w, h)) else before
      case Called(WindowUpdate(i, _, _, w, h)) => if i == id && w > 0 && h > 0 then Some((w, h)) else before
      case Called(WindowDelete(i)) => if i == id then None else before
      case _ => before
  }

  lemma {:induction false} RecordedInPoints(scale: Scale, inputs: seq<Input>, id: U32)
    ensures D.LastSize(scale, inputs, id) ==
            match GivenSize(inputs, id) case Some((w, h)) => Some((Points(w, scale), Points(h, scale))) case None => None
  {
    if |inputs| > 0 { RecordedInPoints(scale, inputs[..|inputs| - 1], id); }
  }

  lemma SpawnPosts(id: U32, x: I32, y: I32, w: U32, h: U32, title: seq<Byte>, scale: Scale)
    ensures Spawns([Create(id, Points(w, scale), Points(h, scale), title), Move(id, TruncDiv(x, scale), TruncDiv(y, scale))],
                   id, x, y, w, h, title, scale)
  {
    PointsSpan(w, scale);
    PointsSpan(h, scale);
    TruncLies(x, scale);
    TruncLies(y, scale);
  }

  lemma StepPosts(s: State, scale: Scale, call: Call, sized: Option<(U32, U32)>)
    requires D.Recorded(s, call.id) ==
             match sized case Some((w, h)) => Some((Points(w, scale), Points(h, scale))) case None => None
    ensures var s' := Step(s, scale, call);
            s.posted <= s'.posted && Posts(s'.posted[|s.posted|..], call, call.id in s.live, sized, scale)
  {
    match call {
      case WindowCreate(id, x, y, w, h, title) => SpawnPosts(id, x, y, w, h, title, scale);
      case WindowUpdate(id, x, y, w, h) => SpawnPosts(id, x, y, w, h, [], scale);
      case WindowSurface(id, frame) =>
        var (w, h) := if sized.Some? then sized.value else (frame.width, frame.height);
        PointsSpan(w, scale);
        PointsSpan(h, scale);
      case _ =>
    }
  }

  /** Over any sessions: what a callback posts, in points, a window being live iff the present
      session has it open and gave it a size, and frames presented at the size given last. */
  lemma PostsOfRun(scale: Scale, inputs: seq<Input>, call: Call)
    requires D.WellSince(inputs)
    ensures var s, id := Through(scale, inputs), call.id;
            var s' := Through(scale, inputs + [Called(call)]);
            && s.posted <= s'.posted
            && Posts(s'.posted[|s.posted|..], call, id in D.OpenSince(inputs) && D.SizedSince(inputs, id), GivenSize(inputs, id), scale)
  {
    ThroughAppend(scale, inputs, Called(call));
    D.RecordIsLastSize(scale, inputs, call.id);
    RecordedInPoints(scale, inputs, call.id);
    D.LiveIffSizedSince(scale, inputs, call.id);
    StepPosts(Through(scale, inputs), scale, call, GivenSize(inputs, call.id));
  }
}
