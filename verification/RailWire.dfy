/** Whole RAIL sessions read off the fields of the orders themselves. */
module RailWire {
  import opened Prelude
  import opened RailGeometry
  import R = RailRouter
  import O = RailOrderIndependence
  import opened RailFrame
  import opened RailCalls
  import C = RailClient
  import opened RailBridge
  import opened RailSession
  import L = RailLive

  // ---- windows announced once --------------------------------------------

  /** The order names an owner, 0 and 0xFFFF_FFFF standing for none. */
  predicate NamesOwner(oi: OrderInfo) {
    oi.hasStyle && oi.hasOwner && oi.owner != 0 && oi.owner != 0xFFFF_FFFF
  }

  /** A tool window, or an owned one that takes no activation. */
  predicate Decorative(oi: OrderInfo) {
    oi.hasStyle && (oi.exstyle / 0x80 % 2 == 1 || (oi.exstyle / 0x0800_0000 % 2 == 1 && NamesOwner(oi)))
  }

  /** The rectangle the order gives. */
  function Place(oi: OrderInfo): Rect { Rect(oi.x, oi.y, WrapI32(oi.w), WrapI32(oi.h)) }

  /** The window of one order is the content of the other's: owned by it and covering it. */
  predicate Contains(frame: OrderInfo, oi: OrderInfo) {
    oi.id != frame.id && NamesOwner(oi) && oi.owner == frame.id && Place(oi).Covers(Place(frame))
  }

  ghost predicate Unwanted(events: seq<Event>, oi: OrderInfo)
    requires L.Orders(events)
  {
    Decorative(oi) || exists e :: e in events && Contains(oi, e.oi)
  }

  lemma AnnounceFields(oi: OrderInfo, frame: OrderInfo)
    ensures L.AnnounceOf(oi).Decoration() <==> Decorative(oi)
    ensures O.Content(L.AnnounceOf(oi), L.AnnounceOf(frame)) <==> Contains(frame, oi)
  {
  }

  lemma HiddenFields(events: seq<Event>, e: Event)
    requires L.OnceEach(events) && e in events
    ensures L.AnnounceOf(e.oi) in ToSet(L.Announced(events))
    ensures O.Hidden(L.AnnounceOf(e.oi), ToSet(L.Announced(events))) <==> Unwanted(events, e.oi)
  {
    var all := ToSet(L.Announced(events));
    L.AnnouncedSet(events);
    assert e.oi in L.Infos(events);
    AnnounceFields(e.oi, e.oi);
    if O.Framed(L.AnnounceOf(e.oi), all) {
      var b :| b in all && O.Content(b, L.AnnounceOf(e.oi));
      var oi :| oi in L.Infos(events) && b == L.AnnounceOf(oi);
      AnnounceFields(oi, e.oi);
    }
    if f :| f in events && Contains(e.oi, f.oi) {
      AnnounceFields(f.oi, e.oi);
      assert f.oi in L.Infos(events) && L.AnnounceOf(f.oi) in all;
    }
  }

  lemma AnnouncedKind(events: seq<Event>, e: Event)
    requires L.OnceEach(events) && |events| <= MAX_WINDOWS && e in events
    ensures var ws, id := Run(events).router.windows, e.oi.id;
            id in ws && (ws[id].kind == R.Filtered <==> Unwanted(events, e.oi))
  {
    L.RunAnnounces(events);
    L.AnnouncedOnce(events);
    O.FinalTable(L.Announced(events));
    HiddenFields(events, e);
    assert L.AnnounceOf(e.oi).id == e.oi.id;
  }

  lemma AnnouncedSize(events: seq<Event>, e: Event, scale: C.Scale)
    requires L.OnceEach(events) && |events| <= MAX_WINDOWS && e in events
    ensures var calls, id := Run(events).calls, e.oi.id;
            id in C.Run(scale, calls).live <==> id in Open(calls) && e.oi.hasSize && e.oi.w > 0 && e.oi.h > 0
  {
    L.RunAnnounces(events);
    SessionStream(events);
    assert L.SizedAsAnnounced(Run(events).calls, e.oi);
    C.LiveIffSized(scale, Run(events).calls, e.oi.id);
  }

  /** After each of at most 256 windows was announced once, by create or update orders in any
      arrival order: a window is filtered iff the fields of its order make it a decoration or
      those of some other order make that one its content; the others are open, and live
      natively iff their order brought a size. */
  lemma AnnouncedTable(events: seq<Event>, e: Event, scale: C.Scale)
    requires L.OnceEach(events) && |events| <= MAX_WINDOWS && e in events
    ensures var b, id := Run(events), e.oi.id;
            && id in b.router.windows
            && (b.router.windows[id].kind == R.Filtered <==> Unwanted(events, e.oi))
            && (id in Open(b.calls) <==> !Unwanted(events, e.oi))
            && (id in C.Run(scale, b.calls).live <==> !Unwanted(events, e.oi) && e.oi.hasSize && e.oi.w > 0 && e.oi.h > 0)
  {
    AnnouncedKind(events, e);
    AnnouncedSize(events, e, scale);
    OpenIsMirrored(events, e.oi.id);
  }

  lemma OpenIsMirrored(events: seq<Event>, id: U32)
    ensures id in Open(Run(events).calls) <==> R.Mirrored(Run(events).router.windows, id)
  {
    SessionStream(events);
    assert id in R.MirrorIds(Run(events).router.windows) <==> R.Mirrored(Run(events).router.windows, id);
  }
}
