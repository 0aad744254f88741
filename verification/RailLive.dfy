/** Which mirrored windows are live, and the order independence of whole sessions. */
module RailLive {
  import opened Prelude
  import opened RailGeometry
  import R = RailRouter
  import O = RailOrderIndependence
  import opened RailFrame
  import opened RailCalls
  import C = RailClient
  import opened RailBridge
  import opened RailSession

  ghost predicate SlotLive(calls: seq<Call>, slot: Slot) {
    slot.used && slot.w > 0 && slot.h > 0 && slot.id in Open(calls) ==> Sized(calls, slot.id)
  }

  /** Every open window whose tracked size is non-zero has had a sized callback, which by
      `LiveIffSized` makes it live. */
  ghost predicate SizedLive(b: Bridge) {
    forall i :: 0 <= i < |b.slots| ==> SlotLive(b.calls, b.slots[i])
  }

  predicate Silent(calls: seq<Call>, id: U32) {
    forall c :: c in calls ==> !((c.WindowCreate? || c.WindowUpdate?) && c.id == id)
  }

  lemma {:induction false} SilentKeepsSized(calls: seq<Call>, more: seq<Call>, id: U32)
    requires Silent(more, id)
    ensures Sized(calls + more, id) == Sized(calls, id)
    decreases |more|
  {
    if |more| == 0 {
      assert calls + more == calls;
    } else {
      var init, last := more[..|more| - 1], more[|more| - 1];
      SilentKeepsSized(calls, init, id);
      SizedAppend(calls + init, last, id);
      assert calls + more == calls + init + [last];
    }
  }

  lemma {:induction false} DrainSilent(demoted: seq<U32>, id: U32)
    ensures Silent(DrainDeletes(demoted), id)
  {
    if |demoted| > 0 {
      DrainSilent(demoted[..|demoted| - 1], id);
    }
  }

  /** What routing an order tells the Rust side about sizes. */
  lemma RouteSized(b: Bridge, slot: Slot, oi: OrderInfo, q: U32)
    requires CallsAgree(b)
    ensures var (b', v) := RouteOrder(b, slot, oi);
            && Sized(b'.calls, q) ==
               (if q == slot.id && v.NewMirror? then slot.w > 0 && slot.h > 0 else Sized(b.calls, q))
            && (q != slot.id && q in Open(b'.calls) ==> q in Open(b.calls))
            && (slot.id in Open(b'.calls) ==> v.NewMirror? || v.KnownMirror?)
            && (v.KnownMirror? ==> slot.id in Open(b.calls))
  {
    var (r, v) := R.WindowOrder(b.router, slot.id, StyleOf(oi), RectOf(oi));
    R.OrderEffect(b.router, slot.id, StyleOf(oi), RectOf(oi));
    RouteKeeps(b, slot, oi);
    var own := VerdictCalls(v, slot, oi);
    DrainSilent(r.demoted, q);
    SilentKeepsSized(b.calls + own, DrainDeletes(r.demoted), q);
    if own == [] {
      assert b.calls + own == b.calls;
    } else {
      SizedAppend(b.calls, own[0], q);
      assert own == [own[0]];
    }
  }

  /** The one way a sized mirrored window can stay without a native window, as it can be seen
      before the order: the order repeats a known window that had no size, brings it one, and
      does not stop it being mirrored, so that it makes no callback. */
  ghost predicate SizeLost(b: Bridge, oi: OrderInfo) {
    var i := FindSlot(b.slots, oi.id);
    && i < |b.slots|
    && ApplyState(b.slots[i], oi).w > 0 && ApplyState(b.slots[i], oi).h > 0
    && !Sized(b.calls, oi.id)
    && R.StaysMirrored(b.router.windows, oi.id, StyleOf(oi), RectOf(oi))
  }

  /** Routing an order can only leave its own slot without a sized callback. */
  lemma RoutedSlots(b: Bridge, slot: Slot, oi: OrderInfo, i: nat)
    requires CallsAgree(b) && OneSlotEach(b.slots)
    requires i < |b.slots| && b.slots[i] == slot && slot.used
    requires forall k :: 0 <= k < |b.slots| && k != i ==> SlotLive(b.calls, b.slots[k])
    ensures var (b', v) := RouteOrder(b, slot, oi);
            && (forall k :: 0 <= k < |b.slots| && k != i ==> SlotLive(b'.calls, b.slots[k]))
            && (SizedLive(b') <==> SlotLive(b'.calls, slot))
            && (v.NewMirror? ==> SlotLive(b'.calls, slot))
  {
    var (b', v) := RouteOrder(b, slot, oi);
    assert b'.slots == b.slots;
    RouteSized(b, slot, oi, slot.id);
    forall k | 0 <= k < |b.slots| && k != i ensures SlotLive(b'.calls, b.slots[k]) {
      RouteSized(b, slot, oi, b.slots[k].id);
    }
  }

  lemma CreateFreshSizedLive(b: Bridge, oi: OrderInfo)
    requires Inv(b) && SizedLive(b) && FindSlot(b.slots, oi.id) == |b.slots|
    ensures SizedLive(OnCreate(b, oi))
  {
    AllocKeeps(b.slots, oi.id);
    FoundIffUsed(b.slots, oi.id);
    match AllocSlot(b.slots, oi.id) {
      case None =>
      case Some((k, slots)) =>
        var slot := ApplyState(slots[k], oi);
        var b0 := b.(slots := slots[k := slot]);
        RefillKeeps(slots, k, slot);
        RoutedSlots(b0, slot, oi, k);
        RouteSized(b0, slot, oi, slot.id);
    }
  }

  lemma CreateKnown(b: Bridge, oi: OrderInfo, i: nat, slot: Slot)
    requires Inv(b) && SizedLive(b)
    requires i == FindSlot(b.slots, oi.id) && i < |b.slots| && slot == ApplyState(b.slots[i], oi)
    ensures var b0 := b.(slots := b.slots[i := slot]);
            && OnCreate(b, oi) == RouteOrder(b0, slot, oi).0
            && (SizedLive(OnCreate(b, oi)) <==> SlotLive(OnCreate(b, oi).calls, slot))
            && (RouteOrder(b0, slot, oi).1.NewMirror? ==> SlotLive(OnCreate(b, oi).calls, slot))
  {
    RefillKeeps(b.slots, i, slot);
    RoutedSlots(b.(slots := b.slots[i := slot]), slot, oi, i);
  }

  /** Routing leaves its own, sized slot without a native window iff the window stays
      mirrored and had no size. */
  lemma RoutedLive(b: Bridge, slot: Slot, oi: OrderInfo)
    requires CallsAgree(b) && slot.used && slot.w > 0 && slot.h > 0
    ensures SlotLive(RouteOrder(b, slot, oi).0.calls, slot) <==>
            !(R.StaysMirrored(b.router.windows, slot.id, StyleOf(oi), RectOf(oi)) && !Sized(b.calls, slot.id))
  {
    R.KnownMirrorIff(b.router, slot.id, StyleOf(oi), RectOf(oi));
    RouteKeeps(b, slot, oi);
    RouteSized(b, slot, oi, slot.id);
  }

  /** A create order keeps every sized mirrored window live exactly when it does not
      silently bring a known, still unsized window its first size. */
  lemma CreateKeepsSizedLive(b: Bridge, oi: OrderInfo)
    requires Inv(b) && SizedLive(b)
    ensures SizedLive(OnCreate(b, oi)) <==> !SizeLost(b, oi)
  {
    var i := FindSlot(b.slots, oi.id);
    if i == |b.slots| {
      CreateFreshSizedLive(b, oi);
    } else {
      var slot := ApplyState(b.slots[i], oi);
      CreateKnown(b, oi, i, slot);
      if slot.w > 0 && slot.h > 0 { RoutedLive(b.(slots := b.slots[i := slot]), slot, oi); }
    }
  }

  lemma PlainSized(calls: seq<Call>, slot: Slot, oi: OrderInfo, q: U32)
    ensures Sized(calls + PlainUpdate(slot, oi), q) <==>
            Sized(calls, q) || (q == slot.id && (oi.hasOffset || oi.hasSize) && slot.w > 0 && slot.h > 0)
  {
    var titles := if oi.hasTitle then [WindowTitle(slot.id, T.Utf8(oi.title))] else [];
    SilentKeepsSized(calls, titles, q);
    if oi.hasOffset || oi.hasSize {
      SizedAppend(calls + titles, WindowUpdate(slot.id, slot.x, slot.y, slot.w, slot.h), q);
      assert calls + PlainUpdate(slot, oi) ==
             calls + titles + [WindowUpdate(slot.id, slot.x, slot.y, slot.w, slot.h)];
    } else {
      assert PlainUpdate(slot, oi) == titles;
    }
  }

  lemma PlainKeepsSlot(calls: seq<Call>, slot: Slot, oi: OrderInfo, other: Slot)
    requires slot.id in Open(calls)
    requires SlotLive(calls, other) || (other == slot && (oi.hasOffset || oi.hasSize))
    requires Open(calls + PlainUpdate(slot, oi)) == Open(calls)
    ensures SlotLive(calls + PlainUpdate(slot, oi), other)
  {
    PlainSized(calls, slot, oi, other.id);
  }

  lemma UpdateKnown(b: Bridge, oi: OrderInfo, i: nat, slot: Slot)
    requires CallsAgree(b) && OneSlotEach(b.slots)
    requires i < |b.slots| && b.slots[i] == slot && slot.used
    requires forall k :: 0 <= k < |b.slots| && k != i ==> SlotLive(b.calls, b.slots[k])
    requires !oi.hasOffset && !oi.hasSize ==> SlotLive(b.calls, slot)
    ensures var (b', v) := RouteOrder(b, slot, oi);
            SizedLive(if v.KnownMirror? then b'.(calls := b'.calls + PlainUpdate(slot, oi)) else b')
  {
    var (b', v) := RouteOrder(b, slot, oi);
    RoutedSlots(b, slot, oi, i);
    RouteSized(b, slot, oi, slot.id);
    if v.KnownMirror? {
      RouteKeeps(b, slot, oi);
      PlainKeeps(b', slot, oi);
      forall k | 0 <= k < |b'.slots| ensures SlotLive(b'.calls + PlainUpdate(slot, oi), b'.slots[k]) {
        PlainKeepsSlot(b'.calls, slot, oi, b'.slots[k]);
      }
    }
  }

  lemma UpdateKeepsSizedLive(b: Bridge, oi: OrderInfo)
    requires Inv(b) && SizedLive(b)
    ensures SizedLive(OnUpdate(b, oi))
  {
    var i := FindSlot(b.slots, oi.id);
    if i == |b.slots| {
      CreateFreshSizedLive(b, oi);
    } else {
      var slot := ApplyState(b.slots[i], oi);
      RefillKeeps(b.slots, i, slot);
      UpdateKnown(b.(slots := b.slots[i := slot]), oi, i, slot);
    }
  }

  lemma QuietCall(calls: seq<Call>, c: Call, slot: Slot)
    requires SlotLive(calls, slot) && (c.WindowDelete? || c.WindowSurface?)
    ensures SlotLive(calls + [c], slot)
  {
    Append(calls, c);
    SizedAppend(calls, c, slot.id);
  }

  lemma QuietKeepsSizedLive(b: Bridge, e: Event)
    requires Inv(b) && SizedLive(b)
    requires !e.CreateOrder? && !e.UpdateOrder?
    ensures SizedLive(Step(b, e))
  {
    var b' := Step(b, e);
    QuietStep(b, e);
    forall i | 0 <= i < |b'.slots| ensures SlotLive(b'.calls, b'.slots[i]) {
      assert SlotLive(b.calls, b.slots[i]);
      if b'.calls != b.calls { QuietCall(b.calls, b'.calls[|b.calls|], b.slots[i]); }
    }
  }

  /** Such an event makes at most one callback, no create or update, and only frees slots. */
  lemma QuietStep(b: Bridge, e: Event)
    requires !e.CreateOrder? && !e.UpdateOrder?
    ensures var b' := Step(b, e);
            && |b'.slots| == |b.slots| && (forall i :: 0 <= i < |b.slots| && b'.slots[i].used ==> b'.slots[i] == b.slots[i])
            && (b'.calls == b.calls || (|b'.calls| == |b.calls| + 1 && b'.calls == b.calls + [b'.calls[|b.calls|]]
                                        && (b'.calls[|b.calls|].WindowDelete? || b'.calls[|b.calls|].WindowSurface?)))
  {
  }

  /** The order at `k` is a create order that loses a size. */
  ghost predicate LosesAt(events: seq<Event>, k: nat)
    requires k < |events|
  {
    events[k].CreateOrder? && SizeLost(Run(events[..k]), events[k].oi)
  }

  ghost predicate LosesNone(events: seq<Event>) {
    forall k :: 0 <= k < |events| ==> !LosesAt(events, k)
  }

  ghost predicate AlwaysSizedLive(events: seq<Event>) {
    forall n :: 0 <= n <= |events| ==> SizedLive(Run(events[..n]))
  }

  /** One step keeps the sized mirrored windows live iff it is not a create order that loses
      a size. */
  lemma StepSizedLive(events: seq<Event>, k: nat)
    requires k < |events| && SizedLive(Run(events[..k]))
    ensures SizedLive(Run(events[..k + 1])) <==> !LosesAt(events, k)
  {
    assert events[..k + 1][..k] == events[..k];
    var b := Run(events[..k]);
    RunKeeps(events[..k]);
    match events[k] {
      case CreateOrder(oi) => CreateKeepsSizedLive(b, oi);
      case UpdateOrder(oi) => UpdateKeepsSizedLive(b, oi);
      case _ => QuietKeepsSizedLive(b, events[k]);
    }
  }

  lemma {:induction false} LosesNoneKeeps(events: seq<Event>, n: nat)
    requires LosesNone(events) && n <= |events|
    ensures SizedLive(Run(events[..n]))
  {
    if n > 0 {
      LosesNoneKeeps(events, n - 1);
      StepSizedLive(events, n - 1);
    }
  }

  /** Along a run every sized mirrored window is live at every moment iff no create order of
      it loses a size. */
  lemma AlwaysSizedLiveIff(events: seq<Event>)
    ensures AlwaysSizedLive(events) <==> LosesNone(events)
  {
    if LosesNone(events) {
      forall n | 0 <= n <= |events| ensures SizedLive(Run(events[..n])) { LosesNoneKeeps(events, n); }
    }
    if AlwaysSizedLive(events) {
      forall k | 0 <= k < |events| ensures !LosesAt(events, k) {
        assert SizedLive(Run(events[..k])) && SizedLive(Run(events[..k + 1]));
        StepSizedLive(events, k);
      }
    }
  }

  /** Every mirrored window whose tracked size is non-zero in both dimensions is live. */
  ghost predicate MirroredLive(b: Bridge, live: seq<U32>) {
    forall i :: 0 <= i < |b.slots| && SizedMirrored(b, b.slots[i]) ==> b.slots[i].id in live
  }

  predicate SizedMirrored(b: Bridge, slot: Slot) {
    slot.used && slot.w > 0 && slot.h > 0 && R.Mirrored(b.router.windows, slot.id)
  }

  lemma SizedLiveMeans(events: seq<Event>, scale: C.Scale)
    ensures var b := Run(events); SizedLive(b) <==> MirroredLive(b, C.Run(scale, b.calls).live)
  {
    var b := Run(events);
    var live := C.Run(scale, b.calls).live;
    RunKeeps(events);
    forall i | 0 <= i < |b.slots|
      ensures SlotLive(b.calls, b.slots[i]) <==> (SizedMirrored(b, b.slots[i]) ==> b.slots[i].id in live)
    {
      C.LiveIffSized(scale, b.calls, b.slots[i].id);
      assert b.slots[i].id in R.MirrorIds(b.router.windows) <==> R.Mirrored(b.router.windows, b.slots[i].id);
    }
  }

  /** The same read off the Rust side's live list: it holds every sized mirrored window after
      each order of the run iff no create order repeats a known unsized window, gives it a
      size and leaves it mirrored. */
  lemma AlwaysLiveIff(events: seq<Event>, scale: C.Scale)
    ensures (forall n :: 0 <= n <= |events| ==>
               MirroredLive(Run(events[..n]), C.Run(scale, Run(events[..n]).calls).live)) <==> LosesNone(events)
  {
    AlwaysSizedLiveIff(events);
    forall n | 0 <= n <= |events|
      ensures SizedLive(Run(events[..n])) <==> MirroredLive(Run(events[..n]), C.Run(scale, Run(events[..n]).calls).live)
    {
      SizedLiveMeans(events[..n], scale);
    }
  }

  /** No create order ever names a window the bridge already knows. */
  ghost predicate NoRepeatedCreate(events: seq<Event>) {
    forall k :: 0 <= k < |events| && events[k].CreateOrder? ==>
      events[k].oi.id !in UsedIds(Run(events[..k]).slots)
  }

  /** So if no create order repeats a known window, every mirrored window whose tracked size
      is non-zero in both dimensions is live. */
  lemma MirroredSizedIsLive(events: seq<Event>, scale: C.Scale)
    requires NoRepeatedCreate(events)
    ensures MirroredLive(Run(events), C.Run(scale, Run(events).calls).live)
  {
    forall k | 0 <= k < |events| ensures !LosesAt(events, k) {
      if events[k].CreateOrder? { FoundIffUsed(Run(events[..k]).slots, events[k].oi.id); }
    }
    LosesNoneKeeps(events, |events|);
    assert events[..|events|] == events;
    SizedLiveMeans(events, scale);
  }

  // ---- sessions that announce each window once ---------------------------

  predicate Orders(events: seq<Event>) {
    forall e :: e in events ==> e.CreateOrder? || e.UpdateOrder?
  }

  function AnnounceOf(oi: OrderInfo): O.Announce {
    O.Announce(oi.id, StyleOf(oi), RectOf(oi))
  }

  function Announced(events: seq<Event>): seq<O.Announce>
    requires Orders(events)
  {
    if |events| == 0 then []
    else
      var oi := events[|events| - 1].oi;
      Announced(events[..|events| - 1]) + [AnnounceOf(oi)]
  }

  predicate OnceEach(events: seq<Event>) {
    && Orders(events)
    && forall i, j :: 0 <= i < j < |events| ==> events[i].oi.id != events[j].oi.id
  }

  function Infos(events: seq<Event>): set<OrderInfo>
    requires Orders(events)
  {
    set e | e in events :: e.oi
  }

  function EventIds(events: seq<Event>): set<U32>
    requires Orders(events)
  {
    set oi | oi in Infos(events) :: oi.id
  }

  predicate BringsSize(oi: OrderInfo) {
    oi.hasSize && oi.w > 0 && oi.h > 0
  }

  lemma {:induction false} FullTable(slots: seq<Slot>)
    requires OneSlotEach(slots)
    requires forall i :: 0 <= i < |slots| ==> slots[i].used
    ensures |UsedIds(slots)| == |slots|
    decreases |slots|
  {
    if |slots| == 0 {
      assert UsedIds(slots) == {};
    } else {
      var init, last := slots[..|slots| - 1], slots[|slots| - 1];
      FullTable(init);
      forall x ensures x in UsedIds(slots) <==> x in UsedIds(init) + {last.id} {
        if x in UsedIds(init) {
          var k :| 0 <= k < |init| && init[k].used && init[k].id == x;
          assert slots[k].used && slots[k].id == x;
        }
        assert slots[|slots| - 1].used && slots[|slots| - 1].id == last.id;
      }
      assert UsedIds(slots) == UsedIds(init) + {last.id};
      assert last.id !in UsedIds(init);
    }
  }

  /** The router has seen exactly the announced windows. */
  ghost predicate SeenExactly(b: Bridge, events: seq<Event>)
    requires Orders(events)
  {
    && b.router.windows == O.AnnounceAll(Announced(events)).windows
    && b.router.windows.Keys == EventIds(events)
    && |b.router.windows.Keys| == |events|
  }

  ghost predicate SizedAsAnnounced(calls: seq<Call>, oi: OrderInfo) {
    oi.id in Open(calls) ==> (Sized(calls, oi.id) <==> BringsSize(oi))
  }

  /** The state after a run of first announcements; an open window is sized iff its
      announcement brought a size. */
  ghost predicate AfterAnnouncing(b: Bridge, events: seq<Event>)
    requires Orders(events)
  {
    Inv(b) && SeenExactly(b, events) && forall e :: e in events ==> SizedAsAnnounced(b.calls, e.oi)
  }

  /** A first announcement, create or update alike, finds room and is routed. */
  lemma AnnounceRoutes(b: Bridge, e: Event) returns (b0: Bridge, slot: Slot)
    requires e.CreateOrder? || e.UpdateOrder?
    requires Inv(b) && |b.router.windows.Keys| < MAX_WINDOWS && e.oi.id !in b.router.windows
    ensures b0 == b.(slots := b0.slots) && CallsAgree(b0)
    ensures slot.id == e.oi.id && Step(b, e) == RouteOrder(b0, slot, e.oi).0
    ensures slot.w > 0 && slot.h > 0 <==> BringsSize(e.oi)
  {
    var oi := e.oi;
    FoundIffUsed(b.slots, oi.id);
    AllocKeeps(b.slots, oi.id);
    if AllocSlot(b.slots, oi.id).None? {
      FullTable(b.slots);
    }
    var (i, slots) := AllocSlot(b.slots, oi.id).value;
    slot := ApplyState(slots[i], oi);
    b0 := b.(slots := slots[i := slot]);
  }

  /** One more first announcement on a table that has room. */
  lemma AnnounceStep(b: Bridge, events: seq<Event>, e: Event)
    requires e.CreateOrder? || e.UpdateOrder?
    requires Orders(events) && AfterAnnouncing(b, events) && |events| < MAX_WINDOWS
    requires e.oi.id !in b.router.windows
    ensures AfterAnnouncing(Step(b, e), events + [e])
  {
    var b0, slot := AnnounceRoutes(b, e);
    StepKeeps(b, e);
    RoutedAnnounces(b, events, e, b0, slot, Step(b, e));
  }

  lemma RoutedAnnounces(b: Bridge, events: seq<Event>, e: Event, b0: Bridge, slot: Slot, b': Bridge)
    requires e.CreateOrder? || e.UpdateOrder?
    requires Orders(events) && AfterAnnouncing(b, events) && e.oi.id !in b.router.windows
    requires b0 == b.(slots := b0.slots) && CallsAgree(b0)
    requires slot.id == e.oi.id && (slot.w > 0 && slot.h > 0 <==> BringsSize(e.oi))
    requires b' == RouteOrder(b0, slot, e.oi).0 && Inv(b')
    ensures AfterAnnouncing(b', events + [e])
  {
    SeenMore(b, events, e, b0, slot);
    forall d | d in events + [e] ensures SizedAsAnnounced(b'.calls, d.oi) {
      AnnouncedSized(b, events, e, b0, slot, d);
    }
  }

  lemma SeenMore(b: Bridge, events: seq<Event>, e: Event, b0: Bridge, slot: Slot)
    requires e.CreateOrder? || e.UpdateOrder?
    requires Orders(events) && SeenExactly(b, events) && e.oi.id !in b.router.windows
    requires b0 == b.(slots := b0.slots) && CallsAgree(b0) && slot.id == e.oi.id
    ensures Orders(events + [e]) && SeenExactly(RouteOrder(b0, slot, e.oi).0, events + [e])
  {
    RoutedWindows(b0, slot, e.oi);
    AnnouncedWindows(b.router, events, e);
    AnnouncedAppend(events, e);
    OneMore(b.router.windows.Keys, e.oi.id);
  }

  lemma RoutedWindows(b: Bridge, slot: Slot, oi: OrderInfo)
    ensures var ws := RouteOrder(b, slot, oi).0.router.windows;
            && ws == R.WindowOrder(b.router, slot.id, StyleOf(oi), RectOf(oi)).0.windows
            && ws.Keys == b.router.windows.Keys + {slot.id}
  {
    R.OrderTable(b.router, slot.id, StyleOf(oi), RectOf(oi));
  }

  lemma OneMore<T>(s: set<T>, x: T)
    requires x !in s
    ensures |s + {x}| == |s| + 1
  {
  }

  lemma AnnouncedSized(b: Bridge, events: seq<Event>, e: Event, b0: Bridge, slot: Slot, d: Event)
    requires e.CreateOrder? || e.UpdateOrder?
    requires Orders(events) && AfterAnnouncing(b, events) && e.oi.id !in b.router.windows
    requires b0 == b.(slots := b0.slots)
    requires slot.id == e.oi.id && (slot.w > 0 && slot.h > 0 <==> BringsSize(e.oi))
    requires d in events || d == e
    ensures SizedAsAnnounced(RouteOrder(b0, slot, e.oi).0.calls, d.oi)
  {
    RouteSized(b0, slot, e.oi, d.oi.id);
    if d in events {
      assert d.oi in Infos(events) && d.oi.id in b.router.windows;
    } else {
      assert e.oi.id !in Open(b.calls);
    }
  }

  lemma AnnouncedAppend(events: seq<Event>, e: Event)
    requires e.CreateOrder? || e.UpdateOrder?
    requires Orders(events)
    ensures Orders(events + [e])
    ensures Announced(events + [e]) == Announced(events) + [AnnounceOf(e.oi)]
    ensures Infos(events + [e]) == Infos(events) + {e.oi}
    ensures EventIds(events + [e]) == EventIds(events) + {e.oi.id}
  {
    assert (events + [e])[..|events|] == events;
  }

  lemma AnnouncedWindows(r: R.State, events: seq<Event>, e: Event)
    requires e.CreateOrder? || e.UpdateOrder?
    requires Orders(events)
    requires r.windows == O.AnnounceAll(Announced(events)).windows
    ensures Orders(events + [e])
    ensures R.WindowOrder(r, e.oi.id, StyleOf(e.oi), RectOf(e.oi)).0.windows
            == O.AnnounceAll(Announced(events + [e])).windows
  {
    AnnouncedAppend(events, e);
    O.AnnounceAppend(Announced(events), AnnounceOf(e.oi));
    R.OrderReadsWindowsOnly(r, O.AnnounceAll(Announced(events)), e.oi.id, StyleOf(e.oi), RectOf(e.oi));
  }

  lemma {:induction false} RunAnnounces(events: seq<Event>)
    requires OnceEach(events) && |events| <= MAX_WINDOWS
    ensures AfterAnnouncing(Run(events), events)
  {
    if |events| == 0 {
      RunKeeps(events);
    } else {
      var init, last := events[..|events| - 1], events[|events| - 1];
      RunAnnounces(init);
      FirstOfItsId(events);
      AnnounceStep(Run(init), init, last);
    }
  }

  lemma FirstOfItsId(events: seq<Event>)
    requires OnceEach(events) && |events| > 0
    ensures var init, last := events[..|events| - 1], events[|events| - 1];
            events == init + [last] && last.oi.id !in EventIds(init)
  {
  }

  lemma {:induction false} AnnouncedOnce(events: seq<Event>)
    requires OnceEach(events)
    ensures |Announced(events)| == |events|
    ensures forall k :: 0 <= k < |events| ==>
              Announced(events)[k] == AnnounceOf(events[k].oi)
    ensures O.EachOnce(Announced(events))
  {
    if |events| > 0 {
      AnnouncedOnce(events[..|events| - 1]);
    }
  }

  lemma AnnouncedSet(events: seq<Event>)
    requires OnceEach(events)
    ensures ToSet(Announced(events)) == set oi | oi in Infos(events) :: AnnounceOf(oi)
  {
    AnnouncedOnce(events);
    var anns := Announced(events);
    forall a ensures a in ToSet(anns) <==> a in (set oi | oi in Infos(events) :: AnnounceOf(oi)) {
      if a in anns {
        var k :| 0 <= k < |anns| && anns[k] == a;
        assert events[k].oi in Infos(events);
      }
      if oi :| oi in Infos(events) && a == AnnounceOf(oi) {
        var k :| 0 <= k < |events| && events[k].oi == oi;
        assert anns[k] == a;
      }
    }
  }

  /** After each of at most 256 windows was announced once, the live windows are exactly
      the mirrored ones whose announcement carried a non-zero size. */
  lemma AnnouncedLive(events: seq<Event>, scale: C.Scale)
    requires OnceEach(events) && |events| <= MAX_WINDOWS
    ensures var b := Run(events);
            ToSet(C.Run(scale, b.calls).live) ==
            set oi | oi in Infos(events) && BringsSize(oi) && R.Mirrored(b.router.windows, oi.id) :: oi.id
  {
    RunAnnounces(events);
    var b := Run(events);
    var live := C.Run(scale, b.calls).live;
    forall id ensures id in live <==>
        id in (set oi | oi in Infos(events) && BringsSize(oi) && R.Mirrored(b.router.windows, oi.id) :: oi.id)
    {
      C.LiveIffSized(scale, b.calls, id);
      if id in Open(b.calls) {
        var e :| e in events && e.oi.id == id;
        assert e.oi in Infos(events);
        forall oi | oi in Infos(events) && oi.id == id ensures oi == e.oi {
          var e' :| e' in events && e'.oi == oi;
          SameEvent(events, e, e');
        }
      }
    }
  }

  lemma SameEvent(events: seq<Event>, e: Event, e': Event)
    requires OnceEach(events) && e in events && e' in events && e.oi.id == e'.oi.id
    ensures e == e'
  {
    var i :| 0 <= i < |events| && events[i] == e;
    var j :| 0 <= j < |events| && events[j] == e';
    assert i == j;
  }

  /** Order independence of a session: two sessions that announce the same windows once
      each, in any order and by create or update orders, end with the same router table
      and the same live windows. */
  lemma SessionOrderIrrelevant(events: seq<Event>, events': seq<Event>, scale: C.Scale)
    requires OnceEach(events) && OnceEach(events')
    requires Infos(events) == Infos(events')
    requires |events| <= MAX_WINDOWS && |events'| <= MAX_WINDOWS
    ensures Run(events).router.windows == Run(events').router.windows
    ensures ToSet(C.Run(scale, Run(events).calls).live) == ToSet(C.Run(scale, Run(events').calls).live)
  {
    RunAnnounces(events);
    RunAnnounces(events');
    AnnouncedOnce(events);
    AnnouncedOnce(events');
    AnnouncedSet(events);
    AnnouncedSet(events');
    O.ArrivalOrderIrrelevant(Announced(events), Announced(events'));
    AnnouncedLive(events, scale);
    AnnouncedLive(events', scale);
  }

  /** The failing case itself: a window announced without a size whose size then arrives in
      a second create order is mirrored and sized but not live. */
  lemma RepeatedCreateNotLive()
    ensures var b := OnCreate(OnCreate(Start(), PlainOrder(1, false, 0, 0)), PlainOrder(1, true, 800, 600));
            && R.Mirrored(b.router.windows, 1)
            && (exists i :: 0 <= i < |b.slots| && Holds(b.slots[i], 1) && b.slots[i].w == 800 && b.slots[i].h == 600)
            && 1 !in C.Run(1, b.calls).live
  {
    var b1 := OnCreate(Start(), PlainOrder(1, false, 0, 0));
    FirstPlainOrder(1, false, 0, 0);
    SecondPlainOrder(b1);
    DeferredNotLive(1);
  }

  /** A window created without a size is not live. */
  lemma DeferredNotLive(id: U32)
    ensures id !in C.Run(1, [WindowCreate(id, 0, 0, 0, 0, [])]).live
  {
    var create := WindowCreate(id, 0, 0, 0, 0, []);
    C.RunAppend(1, [], create);
    assert [] + [create] == [create];
  }

  lemma SecondPlainOrder(b: Bridge)
    requires |b.slots| == MAX_WINDOWS && b.slots[0] == Slot(true, 1, 0, 0, 0, 0)
    requires b.router == R.State(map[1 := R.Win(R.Mirror, None, Rect(0, 0, 0, 0))], map[], [])
    ensures var b' := OnCreate(b, PlainOrder(1, true, 800, 600));
            && |b'.slots| == MAX_WINDOWS && b'.slots[0] == Slot(true, 1, 0, 0, 800, 600)
            && R.Mirrored(b'.router.windows, 1)
            && b'.calls == b.calls
  {
    var second := PlainOrder(1, true, 800, 600);
    assert Holds(b.slots[0], 1) && FindSlot(b.slots, 1) == 0;
    assert R.Filed(b.router.windows, 1, None, RectOf(second)) == map[1 := R.Win(R.Mirror, None, RectOf(second))];
    assert b.calls + [] + [] == b.calls;
  }
}
