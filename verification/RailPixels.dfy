/** Where pixels go and what arrives, on every run: read off the mappings, the surface's own
    window id, the known windows and the sizes the orders gave. */
module RailPixels {
  import opened Prelude
  import R = RailRouter
  import opened RailFrame
  import opened RailCalls
  import opened RailBridge
  import opened RailSession
  import opened RailOrders
  import H = RailHeld
  import W = RailWire

  /** The window the surface was last mapped to, until that window is unmapped or deleted. */
  function MappedTo(events: seq<Event>, sid: U16): Option<U32> {
    if |events| == 0 then None
    else Remapped(MappedTo(events[..|events| - 1], sid), events[|events| - 1], sid)
  }

  function Remapped(before: Option<U32>, e: Event, sid: U16): Option<U32> {
    match e
    case SurfaceMapped(s, w) => if s == sid then Some(w % 0x1_0000_0000) else before
    case WindowUnmapped(w) => if before == Some(w % 0x1_0000_0000) then None else before
    case DeleteOrder(id) => if before == Some(id) then None else before
    case _ => before
  }

  function Entry(m: map<U16, U32>, sid: U16): Option<U32> {
    if sid in m then Some(m[sid]) else None
  }

  lemma StepMap(b: Bridge, e: Event, sid: U16)
    requires Inv(b)
    ensures Entry(Step(b, e).router.surfMap, sid) == Remapped(Entry(b.router.surfMap, sid), e, sid)
  {
    if IsOrder(e) { OrderRoutes(b, e); }
  }

  lemma {:induction false} MapOfRun(events: seq<Event>, sid: U16)
    ensures Entry(Run(events).router.surfMap, sid) == MappedTo(events, sid)
  {
    if |events| > 0 {
      var init := events[..|events| - 1];
      MapOfRun(init, sid);
      RunKeeps(init);
      StepMap(Run(init), events[|events| - 1], sid);
    }
  }

  /** The window a surface's pixels are meant for: the mapped one; without a mapping the one
      the surface itself names, if not 0; and failing that the only known window. */
  predicate Aims(mapped: Option<U32>, named: U32, known: set<U32>, w: U32) {
    || mapped == Some(w)
    || (mapped.None? && named != 0 && w == named)
    || (mapped.None? && named == 0 && known == {w})
  }

  lemma ResolveAims(r: R.State, sid: U16, named: U32, w: U32)
    ensures R.Resolve(r, sid, named) == Some(w) <==>
            Aims(Entry(r.surfMap, sid), named, r.windows.Keys, w) && R.Mirrored(r.windows, w)
  {
    if sid !in r.surfMap && named == 0 {
      if |r.windows| == 1 {
        assert r.windows.Keys == {R.SoleId(r.windows)};
      } else {
        assert |r.windows| == |r.windows.Keys|;
      }
    }
  }

  // ---- what a window gets of a frame -------------------------------------

  /** The pixel byte is the same in both frames, and inside both. */
  predicate SameByte(out: Frame, f: Frame, x: nat, y: nat, k: nat) {
    x < out.width && y < out.height && k < 4 ==>
      && 0 <= y * out.stride + 4 * x + k < |out.data|
      && 0 <= y * f.stride + 4 * x + k < |f.data|
      && out.data[y * out.stride + 4 * x + k] == f.data[y * f.stride + 4 * x + k]
  }

  /** The top left part of the size `w` by `h`, if that is a proper and non-empty part, and
      else the frame itself. */
  ghost predicate Cut(f: Frame, out: Frame, w: U32, h: U32) {
    if 0 < w <= f.width && 0 < h <= f.height && (w < f.width || h < f.height) then
      && out.serial == f.serial && out.width == w && out.height == h
      && forall x: nat, y: nat, k: nat :: SameByte(out, f, x, y, k)
    else out == f
  }

  lemma CropCuts(f: Frame, w: U32, h: U32)
    ensures Cut(f, Cropped(f, w, h), w, h)
  {
    forall x: nat, y: nat, k: nat ensures SameByte(Cropped(f, w, h), f, x, y, k) {
      CroppedPixel(f, w, h, x, y, k);
    }
  }

  /** A known window gets frames cut to the size the orders gave it. */
  lemma CropToCuts(events: seq<Event>, win: U32, f: Frame)
    requires win in Run(events).router.windows
    ensures Cut(f, CropTo(Run(events).slots, win, f), Given(events, win).w, Given(events, win).h)
  {
    var slots := Run(events).slots;
    RunKeeps(events);
    FoundIffUsed(slots, win);
    GeometryOfRun(events, win);
    CropCuts(f, Given(events, win).w, Given(events, win).h);
  }

  // ---- a painted surface -------------------------------------------------

  /** One frame more is delivered, cut to the window's size. */
  ghost predicate Delivered(events: seq<Event>, calls: seq<Call>, calls': seq<Call>, w: U32, f: Frame) {
    exists out: Frame {:trigger WindowSurface(w, out)} ::
      calls' == calls + [WindowSurface(w, out)] && Cut(f, out, Given(events, w).w, Given(events, w).h)
  }

  lemma CropDelivers(events: seq<Event>, calls: seq<Call>, w: U32, f: Frame)
    requires w in Run(events).router.windows
    ensures Delivered(events, calls, calls + [WindowSurface(w, CropTo(Run(events).slots, w, f))], w, f)
  {
    CropToCuts(events, w, f);
    var out := CropTo(Run(events).slots, w, f);
    assert calls + [WindowSurface(w, out)] == calls + [WindowSurface(w, out)];
  }

  predicate Meant(events: seq<Event>, sid: U16, surfaceWindow: U64, w: U32) {
    Aims(MappedTo(events, sid), surfaceWindow % 0x1_0000_0000, Run(events).router.windows.Keys, w)
  }

  /** The router's answer is the window meant, if that is open. */
  lemma AnswerIff(events: seq<Event>, sid: U16, surfaceWindow: U64, w: U32)
    ensures var b := Run(events);
            R.Resolve(b.router, sid, WrapU32(surfaceWindow)) == Some(w) <==>
            Meant(events, sid, surfaceWindow, w) && w in Open(b.calls)
  {
    MapOfRun(events, sid);
    W.OpenIsMirrored(events, w);
    ResolveAims(Run(events).router, sid, WrapU32(surfaceWindow), w);
  }

  /** The same with 0 standing for none. */
  lemma AnswerMeant(events: seq<Event>, sid: U16, surfaceWindow: U64)
    ensures var b := Run(events);
            var to := ResolveId(b.router, sid, WrapU32(surfaceWindow));
            && (to != 0 ==> to in b.router.windows && to in Open(b.calls) && Meant(events, sid, surfaceWindow, to))
            && forall w :: w != 0 && w in Open(b.calls) && Meant(events, sid, surfaceWindow, w) ==> w == to
  {
    var b := Run(events);
    var to := ResolveId(b.router, sid, WrapU32(surfaceWindow));
    AnswerIff(events, sid, surfaceWindow, to);
    forall w | w != 0 && w in Open(b.calls) && Meant(events, sid, surfaceWindow, w) ensures w == to {
      AnswerIff(events, sid, surfaceWindow, w);
    }
  }

  /** After every run, a frame painted on a surface is delivered to the window it is meant for
      iff that is open and not 0, and otherwise nothing is. */
  ghost predicate GoesWhereMeant(events: seq<Event>, sid: U16, surfaceWindow: U64, f: Frame) {
    var calls, calls' := Run(events).calls, Step(Run(events), Painted(sid, surfaceWindow, Some(f))).calls;
    && (forall w :: Meant(events, sid, surfaceWindow, w) && w != 0 && w in Open(calls) ==> Delivered(events, calls, calls', w, f))
    && ((forall w :: Meant(events, sid, surfaceWindow, w) && w != 0 ==> w !in Open(calls)) ==> calls' == calls)
  }

  lemma PaintGoes(events: seq<Event>, sid: U16, surfaceWindow: U64, f: Frame)
    ensures GoesWhereMeant(events, sid, surfaceWindow, f)
  {
    var b := Run(events);
    var to := ResolveId(b.router, sid, WrapU32(surfaceWindow));
    AnswerMeant(events, sid, surfaceWindow);
    PaintCalls(b, sid, surfaceWindow, f);
    if to != 0 {
      CropDelivers(events, b.calls, to, f);
    }
  }

  lemma PaintCalls(b: Bridge, sid: U16, surfaceWindow: U64, f: Frame)
    ensures var to := ResolveId(b.router, sid, WrapU32(surfaceWindow));
            Step(b, Painted(sid, surfaceWindow, Some(f))).calls ==
            b.calls + if to == 0 then [] else [WindowSurface(to, CropTo(b.slots, to, f))]
  {
    assert b.calls + [] == b.calls;
  }

  /** Mapping a surface that holds a frame delivers it to the window named iff that is open
      and not 0, cut to that window's size. */
  lemma MapGoes(events: seq<Event>, sid: U16, windowId: U64, f: Frame)
    requires H.Holding(Run(events), sid, f)
    ensures var calls, calls' := Run(events).calls, Step(Run(events), SurfaceMapped(sid, windowId)).calls;
            var w := windowId % 0x1_0000_0000;
            if w in Open(calls) && w != 0 then Delivered(events, calls, calls', w, f) else calls' == calls
  {
    var b, w := Run(events), windowId % 0x1_0000_0000;
    RunKeeps(events);
    W.OpenIsMirrored(events, w);
    HeldCalls(b, sid, windowId, f);
    if w in Open(b.calls) && w != 0 {
      CropDelivers(events, b.calls, w, f);
    }
  }

  lemma HeldCalls(b: Bridge, sid: U16, windowId: U64, f: Frame)
    requires Inv(b) && H.Holding(b, sid, f)
    ensures var w := windowId % 0x1_0000_0000;
            Step(b, SurfaceMapped(sid, windowId)).calls ==
            if R.Mirrored(b.router.windows, w) && w != 0 then b.calls + [WindowSurface(w, CropTo(b.slots, w, f))] else b.calls
  {
    H.MapDeliversHeld(b, sid, windowId, f);
    MappedStep(b, sid, windowId);
  }

  lemma MappedStep(b: Bridge, sid: U16, windowId: U64)
    ensures Step(b, SurfaceMapped(sid, windowId)).calls == OnMapSurface(b, sid, windowId).calls
  {
  }
}
